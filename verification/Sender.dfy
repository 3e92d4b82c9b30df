/**
 * Sending payment batches with bisection. What the network answers is a parameter: any function of
 * how many sends came before and of the instructions sent.
 */
module Sender {
  import FailureCache
  import Packer

  type Subscriber = FailureCache.Subscriber

  /** An instruction object; two instructions are the same object exactly when their ids agree. */
  datatype Instruction = Instruction(id: nat)

  datatype Transfer = Transfer(subscriber: Subscriber, instruction: Instruction)

  datatype Outcome = Sent(signature: string) | Thrown(message: string)

  datatype Confirmed = Confirmed(subscriber: Subscriber, signature: string)

  datatype Failure = Failure(subscriber: Subscriber, message: string)

  type Network = (nat, seq<Instruction>) -> Outcome

  /** Whether the browser's storage accepts the write that follows the n-th confirmed payment. */
  type Storage = nat -> bool

  /** Only a failed simulation proves that nothing was broadcast. */
  predicate PreBroadcast(outcome: Outcome) {
    outcome.Thrown? && "Transaction simulation failed:" <= outcome.message
  }

  lemma SentIsFinal(outcome: Outcome)
    ensures outcome.Sent? ==> !PreBroadcast(outcome)
  {
  }

  function UnknownStatus(message: string): string {
    "Payment batch status is unknown and was not retried automatically: " + message
  }

  function Instructions(group: seq<Transfer>): (r: seq<Instruction>)
    ensures |r| == |group| && forall k | 0 <= k < |r| :: r[k] == group[k].instruction
  {
    seq(|group|, k requires 0 <= k < |group| => group[k].instruction)
  }

  // --- Bisection as a function --------------------------------------------------------------------

  /** What finally became of one transfer. */
  datatype Verdict = Paid(signature: string) | Refused(message: string)

  /** One send of the transfers at positions `lo` to `hi` of the whole list. */
  datatype Attempt = Attempt(lo: nat, hi: nat, outcome: Outcome) {
    predicate Covers(p: nat) { lo <= p < hi }
  }

  datatype Trace = Trace(attempts: seq<Attempt>, verdicts: seq<Verdict>)

  function Same(n: nat, v: Verdict): (r: seq<Verdict>)
    ensures |r| == n && forall p | 0 <= p < n :: r[p] == v
  {
    seq(n, p => v)
  }

  function Join(a: Trace, b: Trace): Trace {
    Trace(a.attempts + b.attempts, a.verdicts + b.verdicts)
  }

  /** Sending `group`, which starts at position `lo`, after `sent` earlier sends. */
  function Settle(net: Network, group: seq<Transfer>, lo: nat, sent: nat): (r: Trace)
    ensures |r.verdicts| == |group|
    decreases |group|
  {
    if |group| == 0 then Trace([], [])
    else
      var outcome := net(sent, Instructions(group));
      var attempt := Attempt(lo, lo + |group|, outcome);
      match outcome
      case Sent(signature) => Trace([attempt], Same(|group|, Paid(signature)))
      case Thrown(message) =>
        if !PreBroadcast(outcome) then Trace([attempt], Same(|group|, Refused(UnknownStatus(message))))
        else if |group| == 1 then Trace([attempt], [Refused(message)])
        else
          var mid := |group| / 2;
          var left := Settle(net, group[..mid], lo, sent + 1);
          var right := Settle(net, group[mid..], lo + mid, sent + 1 + |left.attempts|);
          Join(Trace([attempt], []), Join(left, right))
  }

  lemma SettleNothing(net: Network, group: seq<Transfer>, lo: nat, sent: nat)
    requires |group| == 0
    ensures Settle(net, group, lo, sent) == Trace([], [])
  {
  }

  /** A group settled by its one send. */
  lemma SettleAtOnce(net: Network, group: seq<Transfer>, lo: nat, sent: nat)
    requires |group| > 0
    requires !PreBroadcast(net(sent, Instructions(group))) || |group| == 1
    ensures var outcome := net(sent, Instructions(group));
            Settle(net, group, lo, sent) == Trace([Attempt(lo, lo + |group|, outcome)],
              match outcome
              case Sent(signature) => Same(|group|, Paid(signature))
              case Thrown(message) =>
                if PreBroadcast(outcome) then [Refused(message)] else Same(|group|, Refused(UnknownStatus(message))))
  {
  }

  /** A group settled by its halves. */
  lemma SettleHalves(net: Network, group: seq<Transfer>, lo: nat, sent: nat)
    requires |group| > 1 && PreBroadcast(net(sent, Instructions(group)))
    ensures var left := Settle(net, group[..|group| / 2], lo, sent + 1);
            var right := Settle(net, group[|group| / 2..], lo + |group| / 2, sent + 1 + |left.attempts|);
            Settle(net, group, lo, sent)
            == Join(Trace([Attempt(lo, lo + |group|, net(sent, Instructions(group)))], []), Join(left, right))
  {
    hide Instructions;
    hide UnknownStatus;
    hide Join;
  }

  /** The groups one after the other. */
  function SettleAll(net: Network, groups: seq<seq<Transfer>>, lo: nat, sent: nat): (r: Trace)
    ensures |r.verdicts| == |Packer.Flatten(groups)|
  {
    if |groups| == 0 then Trace([], [])
    else
      var first := Settle(net, groups[0], lo, sent);
      Join(first, SettleAll(net, groups[1..], lo + |groups[0]|, sent + |first.attempts|))
  }

  function ConfirmedOf(group: seq<Transfer>, verdicts: seq<Verdict>): seq<Confirmed>
    requires |verdicts| == |group|
  {
    if |group| == 0 then []
    else (if verdicts[0].Paid? then [Confirmed(group[0].subscriber, verdicts[0].signature)] else [])
         + ConfirmedOf(group[1..], verdicts[1..])
  }

  function FailuresOf(group: seq<Transfer>, verdicts: seq<Verdict>): seq<Failure>
    requires |verdicts| == |group|
  {
    if |group| == 0 then []
    else (if verdicts[0].Refused? then [Failure(group[0].subscriber, verdicts[0].message)] else [])
         + FailuresOf(group[1..], verdicts[1..])
  }

  function SignaturesOf(attempts: seq<Attempt>): seq<string> {
    if |attempts| == 0 then []
    else (if attempts[0].outcome.Sent? then [attempts[0].outcome.signature] else []) + SignaturesOf(attempts[1..])
  }

  lemma {:induction false} ConfirmedAppend(g: seq<Transfer>, v: seq<Verdict>, g': seq<Transfer>, v': seq<Verdict>)
    requires |v| == |g| && |v'| == |g'|
    ensures ConfirmedOf(g + g', v + v') == ConfirmedOf(g, v) + ConfirmedOf(g', v')
  {
    if |g| == 0 {
      assert g + g' == g' && v + v' == v';
    } else {
      ConfirmedAppend(g[1..], v[1..], g', v');
      assert (g + g')[1..] == g[1..] + g' && (v + v')[1..] == v[1..] + v';
      assert (g + g')[0] == g[0] && (v + v')[0] == v[0];
      var first := if v[0].Paid? then [Confirmed(g[0].subscriber, v[0].signature)] else [];
      var rest, more := ConfirmedOf(g[1..], v[1..]), ConfirmedOf(g', v');
      assert first + rest + more == first + (rest + more);
    }
  }

  lemma {:induction false} FailuresAppend(g: seq<Transfer>, v: seq<Verdict>, g': seq<Transfer>, v': seq<Verdict>)
    requires |v| == |g| && |v'| == |g'|
    ensures FailuresOf(g + g', v + v') == FailuresOf(g, v) + FailuresOf(g', v')
  {
    if |g| == 0 {
      assert g + g' == g' && v + v' == v';
    } else {
      FailuresAppend(g[1..], v[1..], g', v');
      assert (g + g')[1..] == g[1..] + g' && (v + v')[1..] == v[1..] + v';
      assert (g + g')[0] == g[0] && (v + v')[0] == v[0];
      var first := if v[0].Refused? then [Failure(g[0].subscriber, v[0].message)] else [];
      var rest, more := FailuresOf(g[1..], v[1..]), FailuresOf(g', v');
      assert first + rest + more == first + (rest + more);
    }
  }

  lemma SignaturesStep(a: seq<Attempt>)
    requires |a| > 0
    ensures SignaturesOf(a)
         == (if a[0].outcome.Sent? then [a[0].outcome.signature] else []) + SignaturesOf(a[1..])
  {
  }

  lemma NoSignatures(a: seq<Attempt>)
    requires |a| == 0
    ensures SignaturesOf(a) == []
  {
  }

  lemma {:induction false} SignaturesAppend(a: seq<Attempt>, b: seq<Attempt>)
    ensures SignaturesOf(a + b) == SignaturesOf(a) + SignaturesOf(b)
  {
    hide SignaturesOf;
    if |a| == 0 {
      NoSignatures(a);
      assert a + b == b;
    } else {
      SignaturesAppend(a[1..], b);
      assert (a + b)[0] == a[0] && (a + b)[1..] == a[1..] + b;
      SignaturesStep(a);
      SignaturesStep(a + b);
    }
  }

  // --- The sender -------------------------------------------------------------------------------------

  /** Everything the sender has recorded, and the failure cache it shares. */
  datatype Book = Book(log: seq<Attempt>, signatures: seq<string>, confirmed: seq<Confirmed>,
                       failures: seq<Failure>, collected: nat, cache: FailureCache.Cache)

  function Empty(cache: FailureCache.Cache): Book {
    Book([], [], [], [], 0, cache)
  }

  /** The cache after each confirmed subscriber's entry is cleared, the first being payment number `from`. */
  function Cleared(cache: FailureCache.Cache, paid: seq<Confirmed>, from: nat, storage: Storage): FailureCache.Cache {
    if |paid| == 0 then cache
    else
      var n := |paid| - 1;
      var before := Cleared(cache, paid[..n], from, storage);
      if storage(from + n) then before - {FailureCache.CacheKey(paid[n].subscriber)} else before
  }

  lemma {:induction false} ClearedAppend(cache: FailureCache.Cache, paid: seq<Confirmed>, more: seq<Confirmed>,
                                         from: nat, storage: Storage)
    ensures Cleared(cache, paid + more, from, storage)
         == Cleared(Cleared(cache, paid, from, storage), more, from + |paid|, storage)
    decreases |more|
  {
    if |more| == 0 {
      assert paid + more == paid;
    } else {
      var n := |more| - 1;
      ClearedAppend(cache, paid, more[..n], from, storage);
      assert (paid + more)[..|paid| + n] == paid + more[..n];
    }
  }

  function Add(b: Book, group: seq<Transfer>, trace: Trace, storage: Storage): Book
    requires |trace.verdicts| == |group|
  {
    var paid := ConfirmedOf(group, trace.verdicts);
    Book(b.log + trace.attempts, b.signatures + SignaturesOf(trace.attempts), b.confirmed + paid,
         b.failures + FailuresOf(group, trace.verdicts), b.collected + |paid|,
         Cleared(b.cache, paid, |b.confirmed|, storage))
  }

  lemma AddJoin(b: Book, g: seq<Transfer>, t: Trace, g': seq<Transfer>, t': Trace, storage: Storage)
    requires |t.verdicts| == |g| && |t'.verdicts| == |g'|
    ensures Add(Add(b, g, t, storage), g', t', storage) == Add(b, g + g', Join(t, t'), storage)
  {
    hide ConfirmedOf, FailuresOf, SignaturesOf, Cleared;
    ConfirmedAppend(g, t.verdicts, g', t'.verdicts);
    FailuresAppend(g, t.verdicts, g', t'.verdicts);
    SignaturesAppend(t.attempts, t'.attempts);
    ClearedAppend(b.cache, ConfirmedOf(g, t.verdicts), ConfirmedOf(g', t'.verdicts), |b.confirmed|, storage);
  }

  lemma AddPaid(b: Book, group: seq<Transfer>, a: Attempt, storage: Storage)
    requires a.outcome.Sent?
    requires var verdicts := Same(|group|, Paid(a.outcome.signature));
             FailuresOf(group, verdicts) == [] && |ConfirmedOf(group, verdicts)| == |group|
    ensures var verdicts := Same(|group|, Paid(a.outcome.signature));
            Add(b, group, Trace([a], verdicts), storage) ==
            Book(b.log + [a], b.signatures + [a.outcome.signature], b.confirmed + ConfirmedOf(group, verdicts),
                 b.failures, b.collected + |group|,
                 Cleared(b.cache, ConfirmedOf(group, verdicts), |b.confirmed|, storage))
  {
    assert SignaturesOf([a]) == [a.outcome.signature];
  }

  lemma AddRefused(b: Book, group: seq<Transfer>, a: Attempt, verdicts: seq<Verdict>, storage: Storage)
    requires a.outcome.Thrown? && |verdicts| == |group| && ConfirmedOf(group, verdicts) == []
    ensures Add(b, group, Trace([a], verdicts), storage) ==
            Book(b.log + [a], b.signatures, b.confirmed, b.failures + FailuresOf(group, verdicts), b.collected,
                 b.cache)
  {
    assert SignaturesOf([a]) == [];
  }

  lemma OneRefused(group: seq<Transfer>, message: string)
    requires |group| == 1
    ensures ConfirmedOf(group, [Refused(message)]) == []
    ensures FailuresOf(group, [Refused(message)]) == [Failure(group[0].subscriber, message)]
  {
  }

  lemma AddAttempt(b: Book, group: seq<Transfer>, a: Attempt, trace: Trace, storage: Storage)
    requires a.outcome.Thrown? && |trace.verdicts| == |group|
    ensures Add(b.(log := b.log + [a]), group, trace, storage)
         == Add(b, group, Join(Trace([a], []), trace), storage)
  {
    SignaturesAppend([a], trace.attempts);
    assert [] + trace.verdicts == trace.verdicts;
    assert b.log + [a] + trace.attempts == b.log + ([a] + trace.attempts);
  }

  lemma AddNothing(b: Book, group: seq<Transfer>, storage: Storage)
    requires |group| == 0
    ensures Add(b, group, Trace([], []), storage) == b
  {
  }

  lemma NonePaid(signature: string, cache: FailureCache.Cache, from: nat, storage: Storage)
    ensures ConfirmedOf([], Same(0, Paid(signature))) == [] && FailuresOf([], Same(0, Paid(signature))) == []
    ensures Cleared(cache, [], from, storage) == cache
  {
  }

  lemma OneMorePaid(group: seq<Transfer>, i: nat, signature: string)
    requires i < |group|
    ensures ConfirmedOf(group[..i + 1], Same(i + 1, Paid(signature)))
         == ConfirmedOf(group[..i], Same(i, Paid(signature))) + [Confirmed(group[i].subscriber, signature)]
    ensures FailuresOf(group[..i + 1], Same(i + 1, Paid(signature))) == FailuresOf(group[..i], Same(i, Paid(signature)))
  {
    ConfirmedAppend(group[..i], Same(i, Paid(signature)), [group[i]], [Paid(signature)]);
    FailuresAppend(group[..i], Same(i, Paid(signature)), [group[i]], [Paid(signature)]);
    assert group[..i + 1] == group[..i] + [group[i]];
    assert Same(i + 1, Paid(signature)) == Same(i, Paid(signature)) + [Paid(signature)];
  }

  lemma ClearOne(cache: FailureCache.Cache, paid: seq<Confirmed>, last: Confirmed, from: nat, storage: Storage)
    ensures var before := Cleared(cache, paid, from, storage);
            Cleared(cache, paid + [last], from, storage)
            == if storage(from + |paid|) then before - {FailureCache.CacheKey(last.subscriber)} else before
  {
    hide FailureCache.CacheKey;
    assert (paid + [last])[..|paid|] == paid;
  }

  class Sender {
    const net: Network
    const storage: Storage
    /** Every send so far, in order. */
    var log: seq<Attempt>
    var signatures: seq<string>
    var confirmed: seq<Confirmed>
    var failures: seq<Failure>
    var collected: nat
    var cache: FailureCache.Cache

    function View(): Book
      reads this
    {
      Book(log, signatures, confirmed, failures, collected, cache)
    }

    constructor (net: Network, storage: Storage, cache: FailureCache.Cache)
      ensures this.net == net && this.storage == storage
      ensures View() == Empty(cache)
    {
      this.net, this.storage, this.cache := net, storage, cache;
      log, signatures, confirmed, failures, collected := [], [], [], [], 0;
    }

    /** Drops the subscriber's cached failure, if there is one and storage takes the write. */
    method ClearCachedFailure(subscriber: Subscriber, payment: nat)
      modifies this`cache
      ensures cache == if storage(payment) then old(cache) - {FailureCache.CacheKey(subscriber)} else old(cache)
    {
      hide FailureCache.CacheKey;
      var key := FailureCache.CacheKey(subscriber);
      if key !in cache { return; }
      if storage(payment) { cache := cache - {key}; }
    }

    /** Each transfer of a confirmed group is recorded, and its cached failure cleared. */
    method RecordPaid(group: seq<Transfer>, signature: string)
      modifies this`confirmed, this`cache
      ensures confirmed == old(confirmed) + ConfirmedOf(group, Same(|group|, Paid(signature)))
      ensures FailuresOf(group, Same(|group|, Paid(signature))) == []
      ensures |ConfirmedOf(group, Same(|group|, Paid(signature)))| == |group|
      ensures cache == Cleared(old(cache), ConfirmedOf(group, Same(|group|, Paid(signature))), |old(confirmed)|,
                               storage)
    {
      hide ConfirmedOf, FailuresOf, Cleared, FailureCache.CacheKey;
      NonePaid(signature, cache, |confirmed|, storage);
      assert group[..0] == [];
      for i := 0 to |group|
        invariant confirmed == old(confirmed) + ConfirmedOf(group[..i], Same(i, Paid(signature)))
        invariant FailuresOf(group[..i], Same(i, Paid(signature))) == []
        invariant |ConfirmedOf(group[..i], Same(i, Paid(signature)))| == i
        invariant cache == Cleared(old(cache), ConfirmedOf(group[..i], Same(i, Paid(signature))), |old(confirmed)|,
                                   storage)
      {
        OneMorePaid(group, i, signature);
        confirmed := confirmed + [Confirmed(group[i].subscriber, signature)];
        ClearOne(old(cache), ConfirmedOf(group[..i], Same(i, Paid(signature))),
                 Confirmed(group[i].subscriber, signature), |old(confirmed)|, storage);
        ClearCachedFailure(group[i].subscriber, |confirmed| - 1);
      }
      assert group[..|group|] == group;
    }

    method RecordRefused(group: seq<Transfer>, message: string)
      modifies this`failures
      ensures failures == old(failures) + FailuresOf(group, Same(|group|, Refused(message)))
      ensures ConfirmedOf(group, Same(|group|, Refused(message))) == []
    {
      for i := 0 to |group|
        invariant failures == old(failures) + FailuresOf(group[..i], Same(i, Refused(message)))
        invariant ConfirmedOf(group[..i], Same(i, Refused(message))) == []
      {
        ConfirmedAppend(group[..i], Same(i, Refused(message)), [group[i]], [Refused(message)]);
        FailuresAppend(group[..i], Same(i, Refused(message)), [group[i]], [Refused(message)]);
        assert group[..i + 1] == group[..i] + [group[i]];
        assert Same(i + 1, Refused(message)) == Same(i, Refused(message)) + [Refused(message)];
        failures := failures + [Failure(group[i].subscriber, message)];
      }
      assert group[..|group|] == group;
    }

    /** Sends a group; halves it after a failure known to precede the broadcast, and only then. */
    method SendGroup(group: seq<Transfer>, lo: nat)
      modifies this
      ensures View() == Add(old(View()), group, Settle(net, group, lo, old(|log|)), storage)
      decreases |group|, 1
    {
      hide Add;
      hide Cleared;
      hide ConfirmedOf;
      hide FailuresOf;
      hide Settle;
      hide Instructions;
      hide PreBroadcast;
      hide UnknownStatus;
      if |group| == 0 {
        SettleNothing(net, group, lo, |log|);
        AddNothing(View(), group, storage);
        return;
      }
      ghost var before := View();
      var outcome := net(|log|, Instructions(group));
      SentIsFinal(outcome);
      if PreBroadcast(outcome) && |group| > 1 {
        SettleHalves(net, group, lo, |log|);
      } else {
        SettleAtOnce(net, group, lo, |log|);
      }
      ghost var attempt := Attempt(lo, lo + |group|, outcome);
      log := log + [Attempt(lo, lo + |group|, outcome)];
      match outcome
      case Sent(signature) =>
        signatures := signatures + [signature];
        collected := collected + |group|;
        RecordPaid(group, signature);
        AddPaid(before, group, attempt, storage);
      case Thrown(message) =>
        if !PreBroadcast(outcome) {
          RecordRefused(group, UnknownStatus(message));
          AddRefused(before, group, attempt, Same(|group|, Refused(UnknownStatus(message))), storage);
          return;
        }
        if |group| == 1 {
          failures := failures + [Failure(group[0].subscriber, message)];
          OneRefused(group, message);
          AddRefused(before, group, attempt, [Refused(message)], storage);
          return;
        }
        ghost var halves := View();
        SendHalves(group, lo);
        ghost var mid := |group| / 2;
        ghost var left := Settle(net, group[..mid], lo, |halves.log|);
        ghost var right := Settle(net, group[mid..], lo + mid, |halves.log| + |left.attempts|);
        AddAttempt(before, group, attempt, Join(left, right), storage);
    }

    method SendHalves(group: seq<Transfer>, lo: nat)
      requires |group| > 1
      modifies this
      ensures var mid := |group| / 2;
              var left := Settle(net, group[..mid], lo, old(|log|));
              var right := Settle(net, group[mid..], lo + mid, old(|log|) + |left.attempts|);
              View() == Add(old(View()), group, Join(left, right), storage)
      decreases |group|, 0
    {
      hide Settle;
      var mid := |group| / 2;
      ghost var left := Settle(net, group[..mid], lo, |log|);
      SendGroup(group[..mid], lo);
      ghost var right := Settle(net, group[mid..], lo + mid, |log|);
      SendGroup(group[mid..], lo + mid);
      assert group == group[..mid] + group[mid..];
      AddJoin(old(View()), group[..mid], left, group[mid..], right, storage);
    }
  }

  // --- From transfers to groups -------------------------------------------------------------------------

  /** The transfer each instruction object stands for; a later one replaces an earlier one. */
  function ByInstruction(transfers: seq<Transfer>): map<Instruction, Transfer> {
    if |transfers| == 0 then map[]
    else
      var last := transfers[|transfers| - 1];
      ByInstruction(transfers[..|transfers| - 1])[last.instruction := last]
  }

  /** The transfers of a batch; an instruction without one is dropped. */
  function Lookup(batch: seq<Instruction>, m: map<Instruction, Transfer>): seq<Transfer> {
    if |batch| == 0 then []
    else (if batch[0] in m then [m[batch[0]]] else []) + Lookup(batch[1..], m)
  }

  function Groups(batches: seq<seq<Instruction>>, m: map<Instruction, Transfer>): (r: seq<seq<Transfer>>)
    ensures |r| == |batches|
  {
    if |batches| == 0 then [] else [Lookup(batches[0], m)] + Groups(batches[1..], m)
  }

  /** The whole list as it is settled: packed greedily, each group in turn. */
  function Plan(transfers: seq<Transfer>, size: seq<Instruction> -> nat): seq<seq<Transfer>> {
    Groups(Packer.Greedy(Instructions(transfers), Packer.Itself, size, []), ByInstruction(transfers))
  }

  method GroupOf(batch: seq<Instruction>, transferByInstruction: map<Instruction, Transfer>)
    returns (group: seq<Transfer>)
    ensures group == Lookup(batch, transferByInstruction)
  {
    group := [];
    for k := 0 to |batch|
      invariant group + Lookup(batch[k..], transferByInstruction) == Lookup(batch, transferByInstruction)
    {
      assert batch[k..][0] == batch[k] && batch[k..][1..] == batch[k + 1..];
      if batch[k] in transferByInstruction {
        group := group + [transferByInstruction[batch[k]]];
      }
    }
  }

  /** No instruction object stands for two different transfers. */
  predicate OneTransferPerInstruction(transfers: seq<Transfer>) {
    forall i, j | 0 <= i < j < |transfers| && transfers[i].instruction == transfers[j].instruction ::
      transfers[i] == transfers[j]
  }

  /** What is reported: the settlement of the greedily packed groups. */
  function Report(net: Network, transfers: seq<Transfer>, size: seq<Instruction> -> nat, storage: Storage,
                  cache: FailureCache.Cache): Book
  {
    Add(Empty(cache), Packer.Flatten(Plan(transfers, size)), SettleAll(net, Plan(transfers, size), 0, 0), storage)
  }

  /**
   * Packs, sends every batch in turn and reports. Whatever the network answers, confirmed and failed
   * subscribers together are those asked for, each exactly once; there are at most two sends per
   * transfer; and nothing is sent again that a previous send may have broadcast.
   */
  method SendBatchedSubscriberInstructions(net: Network, transfers: seq<Transfer>, size: seq<Instruction> -> nat,
                                           storage: Storage, cache: FailureCache.Cache)
    returns (report: Book)
    ensures report == Report(net, transfers, size, storage, cache)
    ensures OneTransferPerInstruction(transfers) ==>
              multiset(Paying(report.confirmed)) + multiset(Failing(report.failures))
              == multiset(Subscribers(transfers))
    ensures report.collected == |report.confirmed| && |report.confirmed| + |report.failures| == |transfers|
    ensures |report.log| <= 2 * |transfers| && Bisects(report.log)
    ensures forall i, j | 0 <= i < j < |report.log| && Overlap(report.log[i], report.log[j]) ::
              report.log[i].outcome.Thrown? && "Transaction simulation failed:" <= report.log[i].outcome.message &&
              report.log[i].lo <= report.log[j].lo && report.log[j].hi <= report.log[i].hi &&
              report.log[j].hi - report.log[j].lo < report.log[i].hi - report.log[i].lo
    ensures report.cache == Cleared(cache, report.confirmed, 0, storage)
  {
    var transferByInstruction: map<Instruction, Transfer> := map[];
    for i := 0 to |transfers|
      invariant transferByInstruction == ByInstruction(transfers[..i])
    {
      assert transfers[..i + 1][..i] == transfers[..i];
      transferByInstruction := transferByInstruction[transfers[i].instruction := transfers[i]];
    }
    assert transfers[..|transfers|] == transfers;
    var batches := Packer.PackInstructionBatches(Instructions(transfers), size, []);
    var sender := new Sender(net, storage, cache);
    SendBatches(sender, batches, transferByInstruction);
    report := sender.View();
    ReportAccounts(net, transfers, size, storage, cache);
  }

  /** What the settlement of the packed groups says about the transfers asked for. */
  lemma ReportAccounts(net: Network, transfers: seq<Transfer>, size: seq<Instruction> -> nat, storage: Storage,
                       cache: FailureCache.Cache)
    ensures var report := Report(net, transfers, size, storage, cache);
            (OneTransferPerInstruction(transfers) ==>
               multiset(Paying(report.confirmed)) + multiset(Failing(report.failures))
               == multiset(Subscribers(transfers))) &&
            report.collected == |report.confirmed| && |report.confirmed| + |report.failures| == |transfers| &&
            |report.log| <= 2 * |transfers| && ResentOnlyUnbroadcast(report.log) && Bisects(report.log) &&
            report.cache == Cleared(cache, report.confirmed, 0, storage)
  {
    hide Plan, SettleAll, ConfirmedOf, FailuresOf, SignaturesOf, Cleared, ResentOnlyUnbroadcast, Bisects;
    hide Paying, Failing;
    var groups := Plan(transfers, size);
    var sending, trace := Packer.Flatten(groups), SettleAll(net, groups, 0, 0);
    var report := Report(net, transfers, size, storage, cache);
    assert report.confirmed == ConfirmedOf(sending, trace.verdicts);
    assert report.failures == FailuresOf(sending, trace.verdicts);
    assert report.log == trace.attempts;
    ConfirmedAndFailedPartition(sending, trace.verdicts);
    SentIsInputIffDistinct(transfers, size);
    SendAllBound(net, groups, 0, 0);
    NoBlindResendAnywhere(net, groups, 0, 0);
    SendsBisect(net, groups, 0, 0);
  }

  method SendBatches(sender: Sender, batches: seq<seq<Instruction>>, transferByInstruction: map<Instruction, Transfer>)
    requires sender.log == []
    modifies sender
    ensures var plan := Groups(batches, transferByInstruction);
            sender.View() ==
            Add(old(sender.View()), Packer.Flatten(plan), SettleAll(sender.net, plan, 0, 0), sender.storage)
  {
    hide Settle, SettleAll, Add, Lookup, Groups, Join, Packer.Flatten;
    ghost var plan := Groups(batches, transferByInstruction);
    ghost var start := sender.View();
    ghost var settled: Trace := Trace([], []);
    ghost var done: seq<Transfer> := [];
    AddNothing(start, [], sender.storage);
    JoinNothing(SettleAll(sender.net, plan, 0, 0));
    assert batches[0..] == batches;
    assert [] + Packer.Flatten(plan) == Packer.Flatten(plan);
    var lo := 0;
    for b := 0 to |batches|
      invariant lo == |done| && |settled.verdicts| == |done| && |sender.log| == |settled.attempts|
      invariant sender.View() == Add(start, done, settled, sender.storage)
      invariant done + Packer.Flatten(Groups(batches[b..], transferByInstruction)) == Packer.Flatten(plan)
      invariant Join(settled, SettleAll(sender.net, Groups(batches[b..], transferByInstruction), lo, |sender.log|))
             == SettleAll(sender.net, plan, 0, 0)
    {
      var group := GroupOf(batches[b], transferByInstruction);
      ghost var trace := Settle(sender.net, group, lo, |sender.log|);
      GroupsStep(batches, b, transferByInstruction);
      SettleStep(sender.net, done, settled, group, Groups(batches[b + 1..], transferByInstruction), lo, |sender.log|);
      sender.SendGroup(group, lo);
      JoinSizes(settled, trace);
      AddJoin(start, done, settled, group, trace, sender.storage);
      AddLog(start, done, settled, sender.storage);
      AddLog(start, done + group, Join(settled, trace), sender.storage);
      done := done + group;
      settled := Join(settled, trace);
      lo := lo + |group|;
    }
    NothingLeft(sender.net, batches[|batches|..], transferByInstruction, lo, |sender.log|);
    assert done + [] == done;
    JoinNothing(settled);
  }

  lemma NothingLeft(net: Network, batches: seq<seq<Instruction>>, m: map<Instruction, Transfer>, lo: nat, sent: nat)
    requires |batches| == 0
    ensures Packer.Flatten(Groups(batches, m)) == [] && SettleAll(net, Groups(batches, m), lo, sent) == Trace([], [])
  {
  }

  lemma JoinSizes(a: Trace, b: Trace)
    ensures Join(a, b).attempts == a.attempts + b.attempts
    ensures |Join(a, b).verdicts| == |a.verdicts| + |b.verdicts|
  {
  }

  lemma GroupsStep(batches: seq<seq<Instruction>>, b: nat, m: map<Instruction, Transfer>)
    requires b < |batches|
    ensures Groups(batches[b..], m) == [Lookup(batches[b], m)] + Groups(batches[b + 1..], m)
  {
    assert batches[b..][0] == batches[b] && batches[b..][1..] == batches[b + 1..];
  }

  lemma AddLog(b: Book, group: seq<Transfer>, trace: Trace, storage: Storage)
    requires |trace.verdicts| == |group|
    ensures Add(b, group, trace, storage).log == b.log + trace.attempts
  {
  }

  lemma JoinNothing(t: Trace)
    ensures Join(Trace([], []), t) == t == Join(t, Trace([], []))
  {
  }

  lemma JoinAssociates(a: Trace, b: Trace, c: Trace)
    ensures Join(Join(a, b), c) == Join(a, Join(b, c))
  {
    assert a.attempts + b.attempts + c.attempts == a.attempts + (b.attempts + c.attempts);
    assert a.verdicts + b.verdicts + c.verdicts == a.verdicts + (b.verdicts + c.verdicts);
  }

  lemma SettleStep(net: Network, done: seq<Transfer>, settled: Trace, group: seq<Transfer>,
                   rest: seq<seq<Transfer>>, lo: nat, sent: nat)
    ensures var trace := Settle(net, group, lo, sent);
            Join(settled, SettleAll(net, [group] + rest, lo, sent))
            == Join(Join(settled, trace), SettleAll(net, rest, lo + |group|, sent + |trace.attempts|))
    ensures done + Packer.Flatten([group] + rest) == done + group + Packer.Flatten(rest)
  {
    hide Settle;
    var trace := Settle(net, group, lo, sent);
    assert ([group] + rest)[1..] == rest;
    JoinAssociates(settled, trace, SettleAll(net, rest, lo + |group|, sent + |trace.attempts|));
    assert done + (group + Packer.Flatten(rest)) == done + group + Packer.Flatten(rest);
    hide Join;
  }

  // --- Exactly once ---------------------------------------------------------------------------------------

  function Paying(confirmed: seq<Confirmed>): (r: seq<Subscriber>)
    ensures |r| == |confirmed|
  {
    if |confirmed| == 0 then [] else [confirmed[0].subscriber] + Paying(confirmed[1..])
  }

  function Failing(failures: seq<Failure>): (r: seq<Subscriber>)
    ensures |r| == |failures|
  {
    if |failures| == 0 then [] else [failures[0].subscriber] + Failing(failures[1..])
  }

  function Subscribers(group: seq<Transfer>): (r: seq<Subscriber>)
    ensures |r| == |group|
  {
    if |group| == 0 then [] else [group[0].subscriber] + Subscribers(group[1..])
  }

  lemma PayingCons(first: Confirmed, rest: seq<Confirmed>)
    ensures multiset(Paying([first] + rest)) == multiset{first.subscriber} + multiset(Paying(rest))
  {
    assert ([first] + rest)[1..] == rest;
  }

  lemma FailingCons(first: Failure, rest: seq<Failure>)
    ensures multiset(Failing([first] + rest)) == multiset{first.subscriber} + multiset(Failing(rest))
  {
    assert ([first] + rest)[1..] == rest;
  }

  lemma SubscribersCons(group: seq<Transfer>)
    requires |group| > 0
    ensures multiset(Subscribers(group)) == multiset{group[0].subscriber} + multiset(Subscribers(group[1..]))
  {
  }

  lemma NoOutcomes(group: seq<Transfer>, verdicts: seq<Verdict>)
    requires |group| == |verdicts| == 0
    ensures Paying(ConfirmedOf(group, verdicts)) == Failing(FailuresOf(group, verdicts)) == Subscribers(group) == []
  {
  }

  lemma OutcomesStep(group: seq<Transfer>, verdicts: seq<Verdict>)
    requires |group| == |verdicts| > 0
    ensures var c, f := ConfirmedOf(group[1..], verdicts[1..]), FailuresOf(group[1..], verdicts[1..]);
            match verdicts[0]
            case Paid(signature) =>
              ConfirmedOf(group, verdicts) == [Confirmed(group[0].subscriber, signature)] + c &&
              FailuresOf(group, verdicts) == f
            case Refused(message) =>
              ConfirmedOf(group, verdicts) == c &&
              FailuresOf(group, verdicts) == [Failure(group[0].subscriber, message)] + f
  {
    assert [] + ConfirmedOf(group[1..], verdicts[1..]) == ConfirmedOf(group[1..], verdicts[1..]);
    assert [] + FailuresOf(group[1..], verdicts[1..]) == FailuresOf(group[1..], verdicts[1..]);
  }

  /** One verdict for each transfer puts it either among the confirmed or among the failed, once. */
  lemma {:induction false} ConfirmedAndFailedPartition(group: seq<Transfer>, verdicts: seq<Verdict>)
    requires |verdicts| == |group|
    ensures multiset(Paying(ConfirmedOf(group, verdicts))) + multiset(Failing(FailuresOf(group, verdicts)))
         == multiset(Subscribers(group))
    ensures |ConfirmedOf(group, verdicts)| + |FailuresOf(group, verdicts)| == |group|
  {
    hide Paying;
    hide Failing;
    hide Subscribers;
    hide ConfirmedOf;
    hide FailuresOf;
    if |group| == 0 {
      NoOutcomes(group, verdicts);
    } else {
      ConfirmedAndFailedPartition(group[1..], verdicts[1..]);
      SubscribersCons(group);
      OutcomesStep(group, verdicts);
      match verdicts[0]
      case Paid(signature) =>
        PayingCons(Confirmed(group[0].subscriber, signature), ConfirmedOf(group[1..], verdicts[1..]));
      case Refused(message) =>
        FailingCons(Failure(group[0].subscriber, message), FailuresOf(group[1..], verdicts[1..]));
    }
  }

  /** At most `2n - 1` sends settle a group of `n`. */
  lemma {:induction false} SendBound(net: Network, group: seq<Transfer>, lo: nat, sent: nat)
    requires |group| > 0
    ensures 1 <= |Settle(net, group, lo, sent).attempts| <= 2 * |group| - 1
    decreases |group|
  {
    hide Settle;
    hide Instructions;
    hide PreBroadcast;
    hide UnknownStatus;
    if |group| > 1 && PreBroadcast(net(sent, Instructions(group))) {
      var mid := |group| / 2;
      SettleHalves(net, group, lo, sent);
      SendBound(net, group[..mid], lo, sent + 1);
      SendBound(net, group[mid..], lo + mid, sent + 1 + |Settle(net, group[..mid], lo, sent + 1).attempts|);
    } else {
      SettleAtOnce(net, group, lo, sent);
    }
  }

  // --- No transfer is sent again once it may have been broadcast ----------------------------------------------

  predicate Overlap(a: Attempt, b: Attempt) {
    a.lo < b.hi && b.lo < a.hi
  }

  /** A later send of the same positions is a strictly smaller part of one that failed before broadcast. */
  ghost predicate ResentOnlyUnbroadcast(attempts: seq<Attempt>) {
    forall i, j | 0 <= i < j < |attempts| && Overlap(attempts[i], attempts[j]) ::
      PreBroadcast(attempts[i].outcome) && attempts[i].lo <= attempts[j].lo && attempts[j].hi <= attempts[i].hi &&
      attempts[j].hi - attempts[j].lo < attempts[i].hi - attempts[i].lo
  }

  ghost predicate Inside(attempts: seq<Attempt>, lo: nat, hi: nat) {
    forall k | 0 <= k < |attempts| :: lo <= attempts[k].lo < attempts[k].hi <= hi
  }

  lemma ResentJoin(a: seq<Attempt>, b: seq<Attempt>, lo: nat, mid: nat, hi: nat)
    requires ResentOnlyUnbroadcast(a) && ResentOnlyUnbroadcast(b)
    requires Inside(a, lo, mid) && Inside(b, mid, hi) && lo <= mid <= hi
    ensures ResentOnlyUnbroadcast(a + b) && Inside(a + b, lo, hi)
  {
  }

  lemma ResentHalves(first: Attempt, left: seq<Attempt>, right: seq<Attempt>, mid: nat)
    requires first.lo < mid < first.hi && PreBroadcast(first.outcome)
    requires ResentOnlyUnbroadcast(left) && ResentOnlyUnbroadcast(right)
    requires Inside(left, first.lo, mid) && Inside(right, mid, first.hi)
    ensures ResentOnlyUnbroadcast([first] + (left + right)) && Inside([first] + (left + right), first.lo, first.hi)
  {
    ResentJoin(left, right, first.lo, mid, first.hi);
    assert forall k | 0 <= k < |left + right| :: (left + right)[k].hi - (left + right)[k].lo < first.hi - first.lo;
  }

  lemma {:induction false} NoBlindResend(net: Network, group: seq<Transfer>, lo: nat, sent: nat)
    ensures ResentOnlyUnbroadcast(Settle(net, group, lo, sent).attempts)
    ensures Inside(Settle(net, group, lo, sent).attempts, lo, lo + |group|)
    decreases |group|
  {
    hide Settle;
    hide Instructions;
    hide PreBroadcast;
    hide UnknownStatus;
    if |group| == 0 {
      SettleNothing(net, group, lo, sent);
    } else if |group| > 1 && PreBroadcast(net(sent, Instructions(group))) {
      var mid := |group| / 2;
      SettleHalves(net, group, lo, sent);
      var left := Settle(net, group[..mid], lo, sent + 1);
      var right := Settle(net, group[mid..], lo + mid, sent + 1 + |left.attempts|);
      NoBlindResend(net, group[..mid], lo, sent + 1);
      NoBlindResend(net, group[mid..], lo + mid, sent + 1 + |left.attempts|);
      ResentHalves(Attempt(lo, lo + |group|, net(sent, Instructions(group))), left.attempts, right.attempts, lo + mid);
    } else {
      SettleAtOnce(net, group, lo, sent);
    }
  }

  /** The same over the whole list of groups: nothing is ever sent twice unless its send never left the client. */
  lemma {:induction false} NoBlindResendAnywhere(net: Network, groups: seq<seq<Transfer>>, lo: nat, sent: nat)
    ensures ResentOnlyUnbroadcast(SettleAll(net, groups, lo, sent).attempts)
    ensures Inside(SettleAll(net, groups, lo, sent).attempts, lo, lo + |Packer.Flatten(groups)|)
  {
    hide Settle;
    hide Instructions;
    hide PreBroadcast;
    hide UnknownStatus;
    if |groups| > 0 {
      var first := Settle(net, groups[0], lo, sent);
      NoBlindResend(net, groups[0], lo, sent);
      NoBlindResendAnywhere(net, groups[1..], lo + |groups[0]|, sent + |first.attempts|);
      ResentJoin(first.attempts, SettleAll(net, groups[1..], lo + |groups[0]|, sent + |first.attempts|).attempts,
                 lo, lo + |groups[0]|, lo + |Packer.Flatten(groups)|);
    }
  }

  // --- Verdicts match what was sent ---------------------------------------------------------------------------

  ghost predicate SentOnce(attempts: seq<Attempt>, p: nat, signature: string) {
    exists k | 0 <= k < |attempts| :: attempts[k].Covers(p) && attempts[k].outcome == Sent(signature)
  }

  /** A transfer is reported paid under a signature exactly when a send covering it returned that signature. */
  lemma {:induction false} PaidExactlyWhenSent(net: Network, group: seq<Transfer>, lo: nat, sent: nat,
                                               p: nat, sig: string)
    requires p < |group|
    ensures Settle(net, group, lo, sent).verdicts[p] == Paid(sig)
       <==> SentOnce(Settle(net, group, lo, sent).attempts, lo + p, sig)
    decreases |group|
  {
    hide Settle;
    hide Instructions;
    hide PreBroadcast;
    hide UnknownStatus;
    SentIsFinal(net(sent, Instructions(group)));
    if |group| > 1 && PreBroadcast(net(sent, Instructions(group))) {
      var mid := |group| / 2;
      SettleHalves(net, group, lo, sent);
      var first := Attempt(lo, lo + |group|, net(sent, Instructions(group)));
      var left := Settle(net, group[..mid], lo, sent + 1);
      var right := Settle(net, group[mid..], lo + mid, sent + 1 + |left.attempts|);
      NoBlindResend(net, group[..mid], lo, sent + 1);
      NoBlindResend(net, group[mid..], lo + mid, sent + 1 + |left.attempts|);
      if p < mid {
        PaidExactlyWhenSent(net, group[..mid], lo, sent + 1, p, sig);
      } else {
        PaidExactlyWhenSent(net, group[mid..], lo + mid, sent + 1 + |left.attempts|, p - mid, sig);
      }
      PaidJoin(first, left, right, lo, mid, |group|, p, sig);
    } else {
      SettleAtOnce(net, group, lo, sent);
      var attempts := Settle(net, group, lo, sent).attempts;
      assert attempts[0].Covers(lo + p);
    }
  }

  lemma PaidJoin(first: Attempt, left: Trace, right: Trace, lo: nat, mid: nat, n: nat, p: nat, sig: string)
    requires first.outcome.Thrown? && |left.verdicts| == mid && |right.verdicts| == n - mid && p < n
    requires Inside(left.attempts, lo, lo + mid) && Inside(right.attempts, lo + mid, lo + n)
    requires p < mid ==> (left.verdicts[p] == Paid(sig) <==> SentOnce(left.attempts, lo + p, sig))
    requires p >= mid ==> (right.verdicts[p - mid] == Paid(sig) <==> SentOnce(right.attempts, lo + p, sig))
    ensures var whole := Join(Trace([first], []), Join(left, right));
            whole.verdicts[p] == Paid(sig) <==> SentOnce(whole.attempts, lo + p, sig)
  {
    SentJoin(left.attempts, right.attempts, lo + p, sig);
    SentJoin([first], left.attempts + right.attempts, lo + p, sig);
    assert [] + (left.verdicts + right.verdicts) == left.verdicts + right.verdicts;
  }

  lemma SentJoin(a: seq<Attempt>, b: seq<Attempt>, p: nat, sig: string)
    ensures SentOnce(a + b, p, sig) <==> SentOnce(a, p, sig) || SentOnce(b, p, sig)
  {
    if SentOnce(a, p, sig) {
      var k :| 0 <= k < |a| && a[k].Covers(p) && a[k].outcome == Sent(sig);
      assert (a + b)[k] == a[k];
    }
    if SentOnce(b, p, sig) {
      var k :| 0 <= k < |b| && b[k].Covers(p) && b[k].outcome == Sent(sig);
      assert (a + b)[|a| + k] == b[k];
    }
  }

  // --- When a send is retried, and what a transfer's last send decides ---------------------------------------------

  /** A group of several whose failure message begins as a failed simulation's does. */
  predicate Retried(a: Attempt) {
    a.hi - a.lo > 1 && a.outcome.Thrown? && "Transaction simulation failed:" <= a.outcome.message
  }

  /** The verdict a send gives every transfer it covers, if it is not retried. */
  function VerdictOf(outcome: Outcome): Verdict {
    match outcome
    case Sent(signature) => Paid(signature)
    case Thrown(message) =>
      if "Transaction simulation failed:" <= message then Refused(message)
      else Refused("Payment batch status is unknown and was not retried automatically: " + message)
  }

  lemma RetriedExactlyWhen(a: Attempt)
    ensures Retried(a) <==> PreBroadcast(a.outcome) && a.hi - a.lo > 1
  {
  }

  /** Both halves of the positions are sent again later, the smaller or equal half first. */
  ghost predicate HalvesFollow(attempts: seq<Attempt>, k: nat)
    requires k < |attempts|
  {
    var a := attempts[k];
    a.lo <= a.hi &&
    var mid := a.lo + (a.hi - a.lo) / 2;
    exists l, r | k < l < r < |attempts| ::
      attempts[l].lo == a.lo && attempts[l].hi == mid && attempts[r].lo == mid && attempts[r].hi == a.hi
  }

  /** A retried send is followed by its halves; any other is the last for every position it covers. */
  ghost predicate Bisects(attempts: seq<Attempt>) {
    forall k | 0 <= k < |attempts| ::
      if Retried(attempts[k]) then HalvesFollow(attempts, k)
      else forall j | k < j < |attempts| :: !Overlap(attempts[k], attempts[j])
  }

  lemma HalvesShift(before: seq<Attempt>, attempts: seq<Attempt>, after: seq<Attempt>, k: nat)
    requires k < |attempts| && HalvesFollow(attempts, k)
    ensures HalvesFollow(before + attempts + after, |before| + k)
  {
    var a, whole := attempts[k], before + attempts + after;
    var mid := a.lo + (a.hi - a.lo) / 2;
    var l, r :| k < l < r < |attempts| &&
      attempts[l].lo == a.lo && attempts[l].hi == mid && attempts[r].lo == mid && attempts[r].hi == a.hi;
    assert whole[|before| + k] == a && whole[|before| + l] == attempts[l] && whole[|before| + r] == attempts[r];
  }

  lemma BisectsJoin(a: seq<Attempt>, b: seq<Attempt>, lo: nat, mid: nat, hi: nat)
    requires Bisects(a) && Bisects(b) && Inside(a, lo, mid) && Inside(b, mid, hi)
    ensures Bisects(a + b)
  {
    hide Retried, HalvesFollow;
    var whole := a + b;
    forall k | 0 <= k < |whole|
      ensures if Retried(whole[k]) then HalvesFollow(whole, k)
              else forall j | k < j < |whole| :: !Overlap(whole[k], whole[j])
    {
      if k < |a| {
        if Retried(a[k]) {
          HalvesShift([], a, b, k);
          assert [] + a + b == whole;
        }
      } else if Retried(b[k - |a|]) {
        HalvesShift(a, b, [], k - |a|);
        assert a + b + [] == whole;
      } else {
        assert forall j | k < j < |whole| :: whole[j] == b[j - |a|];
      }
    }
  }

  lemma HalvesAt(attempts: seq<Attempt>, k: nat, l: nat, r: nat)
    requires k < l < r < |attempts| && attempts[k].lo <= attempts[k].hi
    requires var mid := attempts[k].lo + (attempts[k].hi - attempts[k].lo) / 2;
             attempts[l].lo == attempts[k].lo && attempts[l].hi == mid &&
             attempts[r].lo == mid && attempts[r].hi == attempts[k].hi
    ensures HalvesFollow(attempts, k)
  {
  }

  lemma BisectsFirst(first: Attempt, left: seq<Attempt>, right: seq<Attempt>)
    requires first.hi - first.lo > 1 && Retried(first) && Bisects(left + right) && |left| > 0 && |right| > 0
    requires var mid := first.lo + (first.hi - first.lo) / 2;
             left[0].lo == first.lo && left[0].hi == mid && right[0].lo == mid && right[0].hi == first.hi
    ensures Bisects([first] + (left + right))
  {
    hide Retried, HalvesFollow;
    var rest := left + right;
    var whole := [first] + rest;
    forall k | 0 <= k < |whole|
      ensures if Retried(whole[k]) then HalvesFollow(whole, k)
              else forall j | k < j < |whole| :: !Overlap(whole[k], whole[j])
    {
      if k == 0 {
        assert whole[1] == left[0] && whole[1 + |left|] == right[0];
        HalvesAt(whole, 0, 1, 1 + |left|);
      } else if Retried(rest[k - 1]) {
        HalvesShift([first], rest, [], k - 1);
        assert [first] + rest + [] == whole;
      } else {
        assert forall j | k < j < |whole| :: whole[j] == rest[j - 1];
      }
    }
  }

  lemma FirstSend(net: Network, group: seq<Transfer>, lo: nat, sent: nat)
    requires |group| > 0
    ensures var attempts := Settle(net, group, lo, sent).attempts;
            |attempts| > 0 && attempts[0] == Attempt(lo, lo + |group|, net(sent, Instructions(group)))
  {
    hide Settle, PreBroadcast, Instructions, UnknownStatus;
    if |group| > 1 && PreBroadcast(net(sent, Instructions(group))) {
      SettleHalves(net, group, lo, sent);
    } else {
      SettleAtOnce(net, group, lo, sent);
    }
  }

  lemma {:induction false} GroupBisects(net: Network, group: seq<Transfer>, lo: nat, sent: nat)
    ensures Bisects(Settle(net, group, lo, sent).attempts)
    decreases |group|
  {
    hide Settle, PreBroadcast, Instructions, UnknownStatus, Retried, HalvesFollow;
    if |group| == 0 {
      SettleNothing(net, group, lo, sent);
    } else if |group| > 1 && PreBroadcast(net(sent, Instructions(group))) {
      var mid := |group| / 2;
      var first := Attempt(lo, lo + |group|, net(sent, Instructions(group)));
      SettleHalves(net, group, lo, sent);
      var left := Settle(net, group[..mid], lo, sent + 1);
      var right := Settle(net, group[mid..], lo + mid, sent + 1 + |left.attempts|);
      GroupBisects(net, group[..mid], lo, sent + 1);
      GroupBisects(net, group[mid..], lo + mid, sent + 1 + |left.attempts|);
      NoBlindResend(net, group[..mid], lo, sent + 1);
      NoBlindResend(net, group[mid..], lo + mid, sent + 1 + |left.attempts|);
      BisectsJoin(left.attempts, right.attempts, lo, lo + mid, lo + |group|);
      FirstSend(net, group[..mid], lo, sent + 1);
      FirstSend(net, group[mid..], lo + mid, sent + 1 + |left.attempts|);
      RetriedExactlyWhen(first);
      BisectsFirst(first, left.attempts, right.attempts);
    } else {
      SettleAtOnce(net, group, lo, sent);
      RetriedExactlyWhen(Attempt(lo, lo + |group|, net(sent, Instructions(group))));
    }
  }

  /** Over the whole list: a group is sent again, as its two halves, exactly when its simulation failed. */
  lemma {:induction false} SendsBisect(net: Network, groups: seq<seq<Transfer>>, lo: nat, sent: nat)
    ensures Bisects(SettleAll(net, groups, lo, sent).attempts)
  {
    hide Settle, Retried, HalvesFollow;
    if |groups| > 0 {
      var first := Settle(net, groups[0], lo, sent);
      var rest := SettleAll(net, groups[1..], lo + |groups[0]|, sent + |first.attempts|);
      GroupBisects(net, groups[0], lo, sent);
      SendsBisect(net, groups[1..], lo + |groups[0]|, sent + |first.attempts|);
      NoBlindResend(net, groups[0], lo, sent);
      NoBlindResendAnywhere(net, groups[1..], lo + |groups[0]|, sent + |first.attempts|);
      BisectsJoin(first.attempts, rest.attempts, lo, lo + |groups[0]|, lo + |Packer.Flatten(groups)|);
    }
  }

  /** The position's last send, and its verdict. */
  ghost predicate DecidedBy(attempts: seq<Attempt>, p: nat, verdict: Verdict) {
    exists k | 0 <= k < |attempts| ::
      attempts[k].Covers(p) && verdict == VerdictOf(attempts[k].outcome) &&
      forall j | k < j < |attempts| :: !attempts[j].Covers(p)
  }

  lemma DecidedShift(before: seq<Attempt>, attempts: seq<Attempt>, after: seq<Attempt>, p: nat, verdict: Verdict)
    requires DecidedBy(attempts, p, verdict) && forall a <- after :: !a.Covers(p)
    ensures DecidedBy(before + attempts + after, p, verdict)
  {
    hide VerdictOf;
    var whole := before + attempts + after;
    var k :| 0 <= k < |attempts| && attempts[k].Covers(p) && verdict == VerdictOf(attempts[k].outcome) &&
             forall j | k < j < |attempts| :: !attempts[j].Covers(p);
    assert whole[|before| + k] == attempts[k];
    forall j | |before| + k < j < |whole| ensures !whole[j].Covers(p) {
      if j < |before| + |attempts| {
        assert whole[j] == attempts[j - |before|];
      } else {
        assert whole[j] in after;
      }
    }
  }

  lemma {:induction false} GroupDecides(net: Network, group: seq<Transfer>, lo: nat, sent: nat, p: nat)
    requires p < |group|
    ensures var trace := Settle(net, group, lo, sent); DecidedBy(trace.attempts, lo + p, trace.verdicts[p])
    decreases |group|
  {
    hide Settle, PreBroadcast, Instructions, UnknownStatus, VerdictOf, DecidedBy;
    if |group| > 1 && PreBroadcast(net(sent, Instructions(group))) {
      var mid := |group| / 2;
      var first := Attempt(lo, lo + |group|, net(sent, Instructions(group)));
      SettleHalves(net, group, lo, sent);
      var left := Settle(net, group[..mid], lo, sent + 1);
      var right := Settle(net, group[mid..], lo + mid, sent + 1 + |left.attempts|);
      NoBlindResend(net, group[mid..], lo + mid, sent + 1 + |left.attempts|);
      if p < mid {
        GroupDecides(net, group[..mid], lo, sent + 1, p);
        DecidedShift([first], left.attempts, right.attempts, lo + p, left.verdicts[p]);
        assert [first] + left.attempts + right.attempts == [first] + (left.attempts + right.attempts);
      } else {
        GroupDecides(net, group[mid..], lo + mid, sent + 1 + |left.attempts|, p - mid);
        DecidedShift([first] + left.attempts, right.attempts, [], lo + p, right.verdicts[p - mid]);
        assert [first] + left.attempts + right.attempts + [] == [first] + (left.attempts + right.attempts);
      }
    } else {
      SettleAtOnce(net, group, lo, sent);
      OneSendDecides(Attempt(lo, lo + |group|, net(sent, Instructions(group))), lo + p);
    }
  }

  lemma OneSendDecides(a: Attempt, p: nat)
    requires a.Covers(p)
    ensures DecidedBy([a], p, VerdictOf(a.outcome))
    ensures match a.outcome
            case Sent(signature) => VerdictOf(a.outcome) == Paid(signature)
            case Thrown(message) =>
              VerdictOf(a.outcome) == Refused(if PreBroadcast(a.outcome) then message else UnknownStatus(message))
  {
    assert [a][0] == a;
  }

  /** Each transfer's verdict is what its last send said: paid, failed in simulation, or of unknown status. */
  lemma {:induction false} LastSendDecides(net: Network, groups: seq<seq<Transfer>>, lo: nat, sent: nat, p: nat)
    requires p < |Packer.Flatten(groups)|
    ensures var trace := SettleAll(net, groups, lo, sent); DecidedBy(trace.attempts, lo + p, trace.verdicts[p])
  {
    hide Settle, VerdictOf, DecidedBy;
    var first := Settle(net, groups[0], lo, sent);
    var rest := SettleAll(net, groups[1..], lo + |groups[0]|, sent + |first.attempts|);
    NoBlindResendAnywhere(net, groups[1..], lo + |groups[0]|, sent + |first.attempts|);
    if p < |groups[0]| {
      GroupDecides(net, groups[0], lo, sent, p);
      DecidedShift([], first.attempts, rest.attempts, lo + p, first.verdicts[p]);
      assert [] + first.attempts + rest.attempts == first.attempts + rest.attempts;
    } else {
      LastSendDecides(net, groups[1..], lo + |groups[0]|, sent + |first.attempts|, p - |groups[0]|);
      DecidedShift(first.attempts, rest.attempts, [], lo + p, rest.verdicts[p - |groups[0]|]);
      assert first.attempts + rest.attempts + [] == first.attempts + rest.attempts;
    }
  }

  // --- Bisection isolates the bad transfers ---------------------------------------------------------------------

  /** A network that refuses, before broadcast, exactly the sends containing a bad instruction. */
  ghost predicate RefusesExactly(net: Network, bad: Instruction -> bool) {
    forall sent: nat, sending: seq<Instruction> ::
      if exists k | 0 <= k < |sending| :: bad(sending[k])
      then PreBroadcast(net(sent, sending)) else net(sent, sending).Sent?
  }

  lemma {:induction false} FailuresAreExactlyTheBad(net: Network, bad: Instruction -> bool, group: seq<Transfer>,
                                                    lo: nat, sent: nat, p: nat)
    requires RefusesExactly(net, bad) && p < |group|
    ensures Settle(net, group, lo, sent).verdicts[p].Refused? <==> bad(group[p].instruction)
    decreases |group|
  {
    hide Settle;
    hide PreBroadcast;
    hide UnknownStatus;
    SentIsFinal(net(sent, Instructions(group)));
    var sending := Instructions(group);
    if |group| > 1 && PreBroadcast(net(sent, sending)) {
      var mid := |group| / 2;
      SettleHalves(net, group, lo, sent);
      var left := Settle(net, group[..mid], lo, sent + 1);
      if p < mid {
        FailuresAreExactlyTheBad(net, bad, group[..mid], lo, sent + 1, p);
      } else {
        FailuresAreExactlyTheBad(net, bad, group[mid..], lo + mid, sent + 1 + |left.attempts|, p - mid);
      }
    } else {
      SettleAtOnce(net, group, lo, sent);
      assert sending[p] == group[p].instruction;
    }
  }

  // --- The whole list ------------------------------------------------------------------------------------------

  /** Every property of one group holds of the list of groups, position by position. */
  lemma {:induction false} PaidExactlyWhenSentAnywhere(net: Network, groups: seq<seq<Transfer>>, lo: nat, sent: nat,
                                                       p: nat, sig: string)
    requires p < |Packer.Flatten(groups)|
    ensures SettleAll(net, groups, lo, sent).verdicts[p] == Paid(sig)
       <==> SentOnce(SettleAll(net, groups, lo, sent).attempts, lo + p, sig)
  {
    hide Settle;
    hide PreBroadcast;
    var first := Settle(net, groups[0], lo, sent);
    var rest := SettleAll(net, groups[1..], lo + |groups[0]|, sent + |first.attempts|);
    NoBlindResend(net, groups[0], lo, sent);
    NoBlindResendAnywhere(net, groups[1..], lo + |groups[0]|, sent + |first.attempts|);
    SentJoin(first.attempts, rest.attempts, lo + p, sig);
    if p < |groups[0]| {
      PaidExactlyWhenSent(net, groups[0], lo, sent, p, sig);
    } else {
      PaidExactlyWhenSentAnywhere(net, groups[1..], lo + |groups[0]|, sent + |first.attempts|, p - |groups[0]|, sig);
    }
  }

  lemma {:induction false} FailuresAreExactlyTheBadAnywhere(net: Network, bad: Instruction -> bool,
                                                            groups: seq<seq<Transfer>>, lo: nat, sent: nat, p: nat)
    requires RefusesExactly(net, bad) && p < |Packer.Flatten(groups)|
    ensures SettleAll(net, groups, lo, sent).verdicts[p].Refused? <==> bad(Packer.Flatten(groups)[p].instruction)
  {
    hide Settle;
    hide RefusesExactly;
    var first := Settle(net, groups[0], lo, sent);
    if p < |groups[0]| {
      FailuresAreExactlyTheBad(net, bad, groups[0], lo, sent, p);
    } else {
      FailuresAreExactlyTheBadAnywhere(net, bad, groups[1..], lo + |groups[0]|, sent + |first.attempts|,
                                       p - |groups[0]|);
    }
  }

  lemma {:induction false} SendAllBound(net: Network, groups: seq<seq<Transfer>>, lo: nat, sent: nat)
    ensures |SettleAll(net, groups, lo, sent).attempts| <= 2 * |Packer.Flatten(groups)|
  {
    hide Settle;
    if |groups| > 0 {
      if |groups[0]| > 0 {
        SendBound(net, groups[0], lo, sent);
      } else {
        SettleNothing(net, groups[0], lo, sent);
      }
      SendAllBound(net, groups[1..], lo + |groups[0]|, sent + |Settle(net, groups[0], lo, sent).attempts|);
    }
  }

  // --- Instruction objects stand for transfers ---------------------------------------------------------------------

  lemma {:induction false} LookupAppend(a: seq<Instruction>, b: seq<Instruction>, m: map<Instruction, Transfer>)
    ensures Lookup(a + b, m) == Lookup(a, m) + Lookup(b, m)
  {
    if |a| == 0 {
      assert a + b == b;
    } else {
      LookupAppend(a[1..], b, m);
      assert (a + b)[0] == a[0] && (a + b)[1..] == a[1..] + b;
      var first := if a[0] in m then [m[a[0]]] else [];
      assert first + (Lookup(a[1..], m) + Lookup(b, m)) == first + Lookup(a[1..], m) + Lookup(b, m);
    }
  }

  lemma {:induction false} GroupsFlatten(batches: seq<seq<Instruction>>, m: map<Instruction, Transfer>)
    ensures Packer.Flatten(Groups(batches, m)) == Lookup(Packer.Flatten(batches), m)
  {
    if |batches| > 0 {
      GroupsFlatten(batches[1..], m);
      LookupAppend(batches[0], Packer.Flatten(batches[1..]), m);
      assert Groups(batches, m)[1..] == Groups(batches[1..], m);
    }
  }

  lemma {:induction false} ByInstructionHasAll(transfers: seq<Transfer>, i: nat)
    requires i < |transfers|
    ensures var m := ByInstruction(transfers); var ix := transfers[i].instruction;
            ix in m && m[ix] in transfers && m[ix].instruction == ix
  {
    var n := |transfers| - 1;
    if i < n && transfers[i].instruction != transfers[n].instruction {
      ByInstructionHasAll(transfers[..n], i);
    }
  }

  lemma {:induction false} LookupPresent(batch: seq<Instruction>, m: map<Instruction, Transfer>)
    requires forall k | 0 <= k < |batch| :: batch[k] in m
    ensures |Lookup(batch, m)| == |batch|
    ensures forall k | 0 <= k < |batch| :: Lookup(batch, m)[k] == m[batch[k]]
  {
    if |batch| > 0 {
      LookupPresent(batch[1..], m);
    }
  }

  lemma StandInsAreInputIffDistinct(transfers: seq<Transfer>, sending: seq<Transfer>, m: map<Instruction, Transfer>)
    requires |sending| == |transfers|
    requires forall k | 0 <= k < |transfers| ::
               transfers[k].instruction in m && sending[k] == m[transfers[k].instruction] &&
               sending[k] in transfers && sending[k].instruction == transfers[k].instruction
    ensures sending == transfers <==> OneTransferPerInstruction(transfers)
  {
    if OneTransferPerInstruction(transfers) {
      forall k | 0 <= k < |transfers| ensures sending[k] == transfers[k] {
        var i :| 0 <= i < |transfers| && transfers[i] == sending[k];
        assert transfers[i].instruction == transfers[k].instruction;
      }
    }
    if sending == transfers {
      forall i, j | 0 <= i < j < |transfers| && transfers[i].instruction == transfers[j].instruction
        ensures transfers[i] == transfers[j]
      {
        assert sending[i] == sending[j];
      }
    }
  }

  /** What is sent is the input, in order, exactly when no instruction object stands for two different transfers. */
  lemma SentIsInputIffDistinct(transfers: seq<Transfer>, size: seq<Instruction> -> nat)
    ensures |Packer.Flatten(Plan(transfers, size))| == |transfers|
    ensures Packer.Flatten(Plan(transfers, size)) == transfers
       <==> OneTransferPerInstruction(transfers)
  {
    hide OneTransferPerInstruction, Packer.Greedy, ByInstruction, Lookup;
    var m, ixs := ByInstruction(transfers), Instructions(transfers);
    Packer.GreedyKeepsItems(ixs, Packer.Itself, size, []);
    GroupsFlatten(Packer.Greedy(ixs, Packer.Itself, size, []), m);
    forall k | 0 <= k < |transfers|
      ensures ixs[k] in m && m[ixs[k]] in transfers && m[ixs[k]].instruction == ixs[k]
    {
      ByInstructionHasAll(transfers, k);
    }
    LookupPresent(ixs, m);
    StandInsAreInputIffDistinct(transfers, Packer.Flatten(Plan(transfers, size)), m);
  }

  // --- What the report says of each transfer ----------------------------------------------------------------------

  lemma {:induction false} ConfirmedMembers(group: seq<Transfer>, verdicts: seq<Verdict>, c: Confirmed)
    requires |verdicts| == |group|
    ensures c in ConfirmedOf(group, verdicts)
       <==> exists p | 0 <= p < |group| :: verdicts[p] == Paid(c.signature) && group[p].subscriber == c.subscriber
  {
    hide FailuresOf, ConfirmedOf;
    if |group| == 0 {
      NoOutcomes(group, verdicts);
    } else {
      OutcomesStep(group, verdicts);
      ConfirmedMembers(group[1..], verdicts[1..], c);
      assert forall p | 0 < p < |group| :: verdicts[p] == verdicts[1..][p - 1] && group[p] == group[1..][p - 1];
      assert forall p | 0 <= p < |group| - 1 :: verdicts[1..][p] == verdicts[p + 1] && group[1..][p] == group[p + 1];
    }
  }

  /** A confirmation is reported exactly when a send covering a transfer of that subscriber returned its signature. */
  lemma ReportConfirmsExactlyTheSent(net: Network, transfers: seq<Transfer>, size: seq<Instruction> -> nat,
                                     storage: Storage, cache: FailureCache.Cache, c: Confirmed)
    requires OneTransferPerInstruction(transfers)
    ensures var report := Report(net, transfers, size, storage, cache);
            (c in report.confirmed <==>
             exists p | 0 <= p < |transfers| ::
               transfers[p].subscriber == c.subscriber && SentOnce(report.log, p, c.signature))
  {
    hide Plan, SettleAll, ConfirmedOf, FailuresOf, SignaturesOf, Cleared, SentOnce, OneTransferPerInstruction;
    var groups := Plan(transfers, size);
    var trace := SettleAll(net, groups, 0, 0);
    var report := Report(net, transfers, size, storage, cache);
    SentIsInputIffDistinct(transfers, size);
    assert report.log == trace.attempts && report.confirmed == ConfirmedOf(transfers, trace.verdicts);
    ConfirmedMembers(transfers, trace.verdicts, c);
    forall p | 0 <= p < |transfers|
      ensures trace.verdicts[p] == Paid(c.signature) <==> SentOnce(report.log, p, c.signature)
    {
      PaidExactlyWhenSentAnywhere(net, groups, 0, 0, p, c.signature);
    }
  }

  lemma {:induction false} SignaturesAreReturned(attempts: seq<Attempt>, signature: string)
    ensures signature in SignaturesOf(attempts)
       <==> exists k | 0 <= k < |attempts| :: attempts[k].outcome == Sent(signature)
  {
    if |attempts| > 0 {
      SignaturesStep(attempts);
      SignaturesAreReturned(attempts[1..], signature);
      assert forall k | 0 < k < |attempts| :: attempts[k] == attempts[1..][k - 1];
      assert forall k | 0 <= k < |attempts| - 1 :: attempts[1..][k] == attempts[k + 1];
    }
  }

  /** The signatures reported are those the sends returned. */
  lemma ReportSignsExactlyTheSent(net: Network, transfers: seq<Transfer>, size: seq<Instruction> -> nat,
                                  storage: Storage, cache: FailureCache.Cache, signature: string)
    ensures var report := Report(net, transfers, size, storage, cache);
            (signature in report.signatures <==>
             exists k | 0 <= k < |report.log| :: report.log[k].outcome == Sent(signature))
  {
    hide Plan, SettleAll, ConfirmedOf, FailuresOf, SignaturesOf, Cleared;
    var report := Report(net, transfers, size, storage, cache);
    var trace := SettleAll(net, Plan(transfers, size), 0, 0);
    assert report.log == trace.attempts && report.signatures == SignaturesOf(trace.attempts);
    SignaturesAreReturned(report.log, signature);
  }

  lemma {:induction false} FailedMembers(group: seq<Transfer>, verdicts: seq<Verdict>, f: Failure)
    requires |verdicts| == |group|
    ensures f in FailuresOf(group, verdicts)
       <==> exists p | 0 <= p < |group| :: verdicts[p] == Refused(f.message) && group[p].subscriber == f.subscriber
  {
    hide FailuresOf, ConfirmedOf;
    if |group| == 0 {
      NoOutcomes(group, verdicts);
    } else {
      OutcomesStep(group, verdicts);
      FailedMembers(group[1..], verdicts[1..], f);
      assert forall p | 0 < p < |group| :: verdicts[p] == verdicts[1..][p - 1] && group[p] == group[1..][p - 1];
      assert forall p | 0 <= p < |group| - 1 :: verdicts[1..][p] == verdicts[p + 1] && group[1..][p] == group[p + 1];
    }
  }

  lemma DecidedOnce(attempts: seq<Attempt>, p: nat, v: Verdict, w: Verdict)
    requires DecidedBy(attempts, p, v) && DecidedBy(attempts, p, w)
    ensures v == w
  {
    hide VerdictOf;
  }

  /** A failure is reported with a message exactly when the last send of a transfer of that subscriber gave it. */
  lemma ReportFailsExactlyTheRefused(net: Network, transfers: seq<Transfer>, size: seq<Instruction> -> nat,
                                     storage: Storage, cache: FailureCache.Cache, f: Failure)
    requires OneTransferPerInstruction(transfers)
    ensures var report := Report(net, transfers, size, storage, cache);
            (f in report.failures <==>
             exists p | 0 <= p < |transfers| ::
               transfers[p].subscriber == f.subscriber && DecidedBy(report.log, p, Refused(f.message)))
  {
    hide Plan, SettleAll, ConfirmedOf, FailuresOf, SignaturesOf, Cleared, DecidedBy, OneTransferPerInstruction;
    var groups := Plan(transfers, size);
    var trace := SettleAll(net, groups, 0, 0);
    var report := Report(net, transfers, size, storage, cache);
    SentIsInputIffDistinct(transfers, size);
    assert report.log == trace.attempts && report.failures == FailuresOf(transfers, trace.verdicts);
    FailedMembers(transfers, trace.verdicts, f);
    forall p | 0 <= p < |transfers|
      ensures trace.verdicts[p] == Refused(f.message) <==> DecidedBy(report.log, p, Refused(f.message))
    {
      LastSendDecides(net, groups, 0, 0, p);
      if DecidedBy(report.log, p, Refused(f.message)) {
        DecidedOnce(report.log, p, trace.verdicts[p], Refused(f.message));
      }
    }
  }

  /** The transfers whose instruction is bad (or good), in order. */
  function Select(transfers: seq<Transfer>, bad: Instruction -> bool, wanted: bool): seq<Transfer> {
    if |transfers| == 0 then []
    else (if bad(transfers[0].instruction) == wanted then [transfers[0]] else []) + Select(transfers[1..], bad, wanted)
  }

  lemma {:induction false} OutcomesAreSelected(group: seq<Transfer>, verdicts: seq<Verdict>, bad: Instruction -> bool)
    requires |verdicts| == |group|
    requires forall p | 0 <= p < |group| :: verdicts[p].Refused? <==> bad(group[p].instruction)
    ensures Failing(FailuresOf(group, verdicts)) == Subscribers(Select(group, bad, true))
    ensures Paying(ConfirmedOf(group, verdicts)) == Subscribers(Select(group, bad, false))
  {
    hide FailuresOf, ConfirmedOf;
    if |group| == 0 {
      NoOutcomes(group, verdicts);
    } else {
      OutcomesStep(group, verdicts);
      OutcomesAreSelected(group[1..], verdicts[1..], bad);
      SelectStep(group, bad, true);
      SelectStep(group, bad, false);
      var c, f := ConfirmedOf(group[1..], verdicts[1..]), FailuresOf(group[1..], verdicts[1..]);
      match verdicts[0]
      case Paid(signature) =>
        var first := Confirmed(group[0].subscriber, signature);
        assert ([first] + c)[1..] == c;
      case Refused(message) =>
        var first := Failure(group[0].subscriber, message);
        assert ([first] + f)[1..] == f;
    }
  }

  lemma SelectStep(group: seq<Transfer>, bad: Instruction -> bool, wanted: bool)
    requires |group| > 0
    ensures Subscribers(Select(group, bad, wanted))
         == (if bad(group[0].instruction) == wanted then [group[0].subscriber] else [])
            + Subscribers(Select(group[1..], bad, wanted))
  {
    var rest := Select(group[1..], bad, wanted);
    assert ([group[0]] + rest)[1..] == rest;
    assert [] + rest == rest;
  }

  /**
   * If the network refuses, before broadcast, exactly the sends containing a bad instruction, the report
   * lists exactly the bad transfers as failed and the others as confirmed, each in the order asked.
   */
  lemma ReportFailsExactlyTheBad(net: Network, transfers: seq<Transfer>, size: seq<Instruction> -> nat,
                                 storage: Storage, cache: FailureCache.Cache, bad: Instruction -> bool)
    requires OneTransferPerInstruction(transfers) && RefusesExactly(net, bad)
    ensures var report := Report(net, transfers, size, storage, cache);
            Failing(report.failures) == Subscribers(Select(transfers, bad, true)) &&
            Paying(report.confirmed) == Subscribers(Select(transfers, bad, false))
  {
    hide Plan, SettleAll, ConfirmedOf, FailuresOf, SignaturesOf, Cleared, RefusesExactly, OneTransferPerInstruction;
    hide Select, Paying, Failing;
    var groups := Plan(transfers, size);
    var trace := SettleAll(net, groups, 0, 0);
    SentIsInputIffDistinct(transfers, size);
    forall p | 0 <= p < |transfers| ensures trace.verdicts[p].Refused? <==> bad(transfers[p].instruction) {
      FailuresAreExactlyTheBadAnywhere(net, bad, groups, 0, 0, p);
    }
    var report := Report(net, transfers, size, storage, cache);
    assert report.failures == FailuresOf(transfers, trace.verdicts);
    assert report.confirmed == ConfirmedOf(transfers, trace.verdicts);
    OutcomesAreSelected(transfers, trace.verdicts, bad);
  }

  // --- The failure cache after a run -------------------------------------------------------------------------------

  /** Clearing only forgets entries, so a sound failure cache stays sound. */
  lemma {:induction false} ClearedKeepsSound(cache: FailureCache.Cache, paid: seq<Confirmed>, from: nat,
                                             storage: Storage, contexts: FailureCache.Contexts)
    requires FailureCache.Sound(cache, contexts)
    ensures FailureCache.Sound(Cleared(cache, paid, from, storage), contexts)
  {
    hide FailureCache.Sound;
    if |paid| > 0 {
      var n := |paid| - 1;
      var before := Cleared(cache, paid[..n], from, storage);
      ClearedKeepsSound(cache, paid[..n], from, storage, contexts);
      FailureCache.ForgettingKeepsSound(before, {FailureCache.CacheKey(paid[n].subscriber)}, contexts);
    }
  }

  /** Every other subscriber's entry is kept, and where storage takes every write no confirmed one's is. */
  lemma {:induction false} ClearsExactlyTheConfirmed(cache: FailureCache.Cache, paid: seq<Confirmed>, from: nat,
                                                     storage: Storage, key: string)
    ensures key in Cleared(cache, paid, from, storage) ==>
              key in cache && Cleared(cache, paid, from, storage)[key] == cache[key]
    ensures key in cache && (forall i | 0 <= i < |paid| :: FailureCache.CacheKey(paid[i].subscriber) != key) ==>
              key in Cleared(cache, paid, from, storage)
    ensures (forall i: nat :: storage(i)) &&
            (exists i | 0 <= i < |paid| :: FailureCache.CacheKey(paid[i].subscriber) == key) ==>
              key !in Cleared(cache, paid, from, storage)
  {
    hide FailureCache.CacheKey;
    if |paid| > 0 {
      var n := |paid| - 1;
      ClearsExactlyTheConfirmed(cache, paid[..n], from, storage, key);
      assert forall i | 0 <= i < n :: paid[..n][i] == paid[i];
      if i :| 0 <= i < |paid| && FailureCache.CacheKey(paid[i].subscriber) == key {
        if i < n { assert FailureCache.CacheKey(paid[..n][i].subscriber) == key; }
      }
    }
  }
}
