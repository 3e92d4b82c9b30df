/**
 * The eager reference: one ledger entry per period, each with its own cap. The program keeps only
 * (period start, pulled); these lemmas show that pair accepts exactly what the full ledger accepts.
 */
module Ledger {
  import opened Types
  import opened Metering

  /** Amount charged so far to each period index, counted from the first period start. */
  type Book = map<nat, nat>

  function Entry(b: Book, i: nat): nat {
    if i in b then b[i] else 0
  }

  /** A pull at `now` is charged to its own calendar period, or to the last one before `expiry`. */
  predicate EagerAccepts(b: Book, first: Time, period: U64, cap: U64, amount: U64, expiry: I64, now: UnixTime)
    requires period > 0
  {
    amount != 0 && !IsExpired(expiry, now) && first <= now &&
    Entry(b, PeriodIndex(first, period, expiry, now)) + amount <= cap
  }

  function EagerPost(b: Book, first: Time, period: U64, amount: U64, expiry: I64, now: UnixTime): Book
    requires period > 0 && first <= now
  {
    var i := PeriodIndex(first, period, expiry, now);
    b[i := Entry(b, i) + amount]
  }

  /** The meter stands at the start of period `j`, the latest period the ledger has charged. */
  ghost predicate StandsAt(m: Meter, j: nat, b: Book, first: Time, period: U64, cap: U64) {
    m.start == first + j * period &&
    m.pulled == Entry(b, j) &&
    (forall i: nat :: i > j ==> Entry(b, i) == 0) &&
    (forall i: nat :: Entry(b, i) <= cap)
  }

  /** The current period begins before the expiry, or no period has been passed yet. */
  predicate Within(start: int, first: Time, expiry: I64) {
    start == first || expiry == 0 || start < expiry
  }

  lemma LastPeriodShift(first: int, period: int, expiry: int, j: nat)
    requires period > 0 && (j == 0 || first + j * period < expiry)
    ensures LastPeriod(first + j * period, period, expiry) == LastPeriod(first, period, expiry) - j
  {
    if j > 0 {
      MulMonotone(0, j, period);
      DivShift(expiry - 1 - first, period, j);
    }
  }

  /** Counting periods from a later boundary only subtracts the boundaries already passed. */
  lemma IndexShift(first: int, period: int, expiry: int, now: int, j: nat)
    requires period > 0 && first + j * period <= now
    requires j == 0 || expiry == 0 || first + j * period < expiry
    ensures first <= now
    ensures PeriodIndex(first + j * period, period, expiry, now) == PeriodIndex(first, period, expiry, now) - j
  {
    MulMonotone(0, j, period);
    DivShift(now - first, period, j);
    if expiry != 0 {
      LastPeriodShift(first, period, expiry, j);
    }
  }

  /** Advancing the meter moves it to the period the ledger would charge. */
  lemma AdvanceStands(m: Meter, j: nat, b: Book, first: Time, period: U64, cap: U64, expiry: I64, now: UnixTime)
    requires 0 < period && StandsAt(m, j, b, first, period, cap) && Within(m.start, first, expiry)
    requires m.start <= now
    ensures first <= now
    ensures StandsAt(Advance(m, period, expiry, now), PeriodIndex(first, period, expiry, now), b, first, period, cap)
    ensures Within(Advance(m, period, expiry, now).start, first, expiry)
  {
    if j > 0 { MulMonotone(1, j, period); }
    IndexShift(first, period, expiry, now, j);
    var k := PeriodIndex(m.start, period, expiry, now);
    var i := PeriodIndex(first, period, expiry, now);
    MulSum(j, k, period);
    if k > 0 {
      assert Advance(m, period, expiry, now) == Meter(first + i * period, 0);
    }
  }

  lemma MulSum(j: int, k: int, p: int)
    ensures (j + k) * p == j * p + k * p
  {
  }

  lemma PostStands(m: Meter, i: nat, b: Book, first: Time, period: U64, cap: U64, amount: U64)
    requires StandsAt(m, i, b, first, period, cap) && m.pulled + amount <= cap
    ensures StandsAt(m.(pulled := m.pulled + amount), i, b[i := Entry(b, i) + amount], first, period, cap)
  {
    var b' := b[i := Entry(b, i) + amount];
    forall x: nat
      ensures Entry(b', x) == if x == i then Entry(b, i) + amount else Entry(b, x)
    {
    }
  }

  /** One pull: same verdict, and the meter again stands for the ledger. */
  lemma ChargeIsEager(m: Meter, j: nat, b: Book, first: Time, period: U64, cap: U64, amount: U64, expiry: I64,
                      now: UnixTime)
    requires 0 < period <= I64_MAX && StandsAt(m, j, b, first, period, cap) && Within(m.start, first, expiry)
    requires m.start <= now || m.start == first
    ensures Charge(amount, cap, period, m, expiry, now).Ok? <==>
            EagerAccepts(b, first, period, cap, amount, expiry, now)
    ensures var r := Charge(amount, cap, period, m, expiry, now);
            r.Ok? ==>
              StandsAt(r.value, PeriodIndex(first, period, expiry, now),
                       EagerPost(b, first, period, amount, expiry, now), first, period, cap) &&
              Within(r.value.start, first, expiry) && r.value.start <= now
  {
    if m.start <= now {
      AdvanceStands(m, j, b, first, period, cap, expiry, now);
      var moved := Advance(m, period, expiry, now);
      if moved.pulled + amount <= cap {
        PostStands(moved, PeriodIndex(first, period, expiry, now), b, first, period, cap, amount);
      }
    }
  }

  // --- Whole runs of pull attempts ---------------------------------------------------------------

  datatype Attempt = Attempt(amount: U64, expiry: I64, now: UnixTime)

  function LazyVerdicts(m: Meter, period: U64, cap: U64, attempts: seq<Attempt>): seq<bool>
    decreases |attempts|
  {
    if |attempts| == 0 then []
    else
      var x := attempts[0];
      match Charge(x.amount, cap, period, m, x.expiry, x.now)
      case Ok(m') => [true] + LazyVerdicts(m', period, cap, attempts[1..])
      case Err(_) => [false] + LazyVerdicts(m, period, cap, attempts[1..])
  }

  function EagerVerdicts(b: Book, first: Time, period: U64, cap: U64, attempts: seq<Attempt>): seq<bool>
    requires period > 0
    decreases |attempts|
  {
    if |attempts| == 0 then []
    else
      var x := attempts[0];
      if EagerAccepts(b, first, period, cap, x.amount, x.expiry, x.now) then
        var posted := EagerPost(b, first, period, x.amount, x.expiry, x.now);
        [true] + EagerVerdicts(posted, first, period, cap, attempts[1..])
      else
        [false] + EagerVerdicts(b, first, period, cap, attempts[1..])
  }

  /**
   * Time never runs backwards, and between two attempts the expiry stays as it was, is lifted, or
   * moves to an instant still in the future when it is moved.
   */
  ghost predicate Orderly(since: int, expiry: I64, attempts: seq<Attempt>)
    decreases |attempts|
  {
    |attempts| == 0 ||
    (since <= attempts[0].now &&
     (attempts[0].expiry == expiry || attempts[0].expiry == 0 || attempts[0].expiry > since) &&
     Orderly(attempts[0].now, attempts[0].expiry, attempts[1..]))
  }

  lemma {:induction false} VerdictsAgree(m: Meter, j: nat, b: Book, first: Time, period: U64, cap: U64,
                                         since: int, expiry: I64, attempts: seq<Attempt>)
    requires 0 < period <= I64_MAX && StandsAt(m, j, b, first, period, cap)
    requires Within(m.start, first, expiry) && (m.start <= since || m.start == first)
    requires Orderly(since, expiry, attempts)
    ensures LazyVerdicts(m, period, cap, attempts) == EagerVerdicts(b, first, period, cap, attempts)
    decreases |attempts|
  {
    if |attempts| > 0 {
      var x := attempts[0];
      ChargeIsEager(m, j, b, first, period, cap, x.amount, x.expiry, x.now);
      match Charge(x.amount, cap, period, m, x.expiry, x.now) {
        case Ok(m') =>
          VerdictsAgree(m', PeriodIndex(first, period, x.expiry, x.now),
                        EagerPost(b, first, period, x.amount, x.expiry, x.now),
                        first, period, cap, x.now, x.expiry, attempts[1..]);
        case Err(_) =>
          VerdictsAgree(m, j, b, first, period, cap, x.now, x.expiry, attempts[1..]);
      }
    }
  }

  /** From a fresh meter, lazy and eager accept and reject the same attempts, in any orderly run. */
  lemma LazyRefinesEager(first: Time, period: U64, cap: U64, since: int, expiry: I64, attempts: seq<Attempt>)
    requires 0 < period <= I64_MAX && Orderly(since, expiry, attempts)
    ensures LazyVerdicts(Meter(first, 0), period, cap, attempts) == EagerVerdicts(map[], first, period, cap, attempts)
  {
    assert StandsAt(Meter(first, 0), 0, map[], first, period, cap);
    VerdictsAgree(Meter(first, 0), 0, map[], first, period, cap, since, expiry, attempts);
  }
}
