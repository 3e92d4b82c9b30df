/** The per-period allowance check shared by recurring delegations and subscriptions. */
module Metering {
  import opened Types

  /** A finite expiry is inclusive: the instant `expiry` itself is still spendable. */
  predicate IsExpired(expiry: I64, now: int) {
    expiry != 0 && now > expiry
  }

  function FixedTransferCheck(amount: U64, remaining: U64, expiry: I64, now: UnixTime): Check {
    if amount == 0 then Fail(InvalidAmount)
    else if IsExpired(expiry, now) then Fail(DelegationExpired)
    else Need(amount <= remaining, AmountExceedsLimit)
  }

  /** What the program stores between pulls. */
  datatype Meter = Meter(start: Time, pulled: U64)

  // --- Division facts -------------------------------------------------------------------------

  lemma DivBounds(x: int, p: int)
    requires p > 0
    ensures x / p * p <= x < x / p * p + p
  {
  }

  lemma DivUnique(x: int, p: int, q: int)
    requires p > 0 && q * p <= x < q * p + p
    ensures x / p == q
  {
    DivBounds(x, p);
    if x / p > q {
      MulMonotone(q + 1, x / p, p);
    } else if x / p < q {
      MulMonotone(x / p + 1, q, p);
    }
  }

  lemma MulMonotone(a: int, b: int, p: int)
    requires a <= b && p >= 0
    ensures a * p <= b * p
  {
    assert (b - a) * p >= 0;
  }

  lemma DivMonotone(x: int, y: int, p: int)
    requires p > 0 && x <= y
    ensures x / p <= y / p
  {
    DivBounds(x, p);
    DivBounds(y, p);
    if x / p > y / p {
      MulMonotone(y / p + 1, x / p, p);
    }
  }

  /** Shifting the origin by whole periods shifts the quotient by as many. */
  lemma DivShift(x: int, p: int, j: int)
    requires p > 0
    ensures (x - j * p) / p == x / p - j
  {
    DivBounds(x, p);
    assert (x / p - j) * p == x / p * p - j * p;
    DivUnique(x - j * p, p, x / p - j);
  }

  // --- The closed form of the lazy advance ------------------------------------------------------

  /** Index, counted from `start`, of the last period that begins strictly before `expiry`; never below 0. */
  function LastPeriod(start: int, period: int, expiry: int): (k: nat)
    requires period > 0
    ensures k > 0 ==> start + k * period < expiry
    ensures start < expiry ==> expiry <= start + k * period + period
  {
    if expiry - 1 < start then 0
    else
      DivBounds(expiry - 1 - start, period);
      assert (expiry - 1 - start) / period >= 0;
      (expiry - 1 - start) / period
  }

  /** The period, counted from `start`, that a pull at `now` is charged to. */
  function PeriodIndex(start: int, period: int, expiry: int, now: int): (k: nat)
    requires period > 0 && start <= now
    ensures start + k * period <= now
    ensures k > 0 && expiry != 0 ==> start + k * period < expiry
  {
    var elapsed := Elapsed(start, period, now);
    var last := LastPeriod(start, period, expiry);
    if expiry == 0 then elapsed
    else if elapsed <= last then
      MulMonotone(elapsed, last, period);
      elapsed
    else
      MulMonotone(last, elapsed, period);
      last
  }

  /** Whole periods between `start` and `now`. */
  function Elapsed(start: int, period: int, now: int): (k: nat)
    requires period > 0 && start <= now
    ensures start + k * period <= now < start + k * period + period
  {
    DivBounds(now - start, period);
    assert (now - start) / period >= 0;
    (now - start) / period
  }

  function Advance(m: Meter, period: int, expiry: int, now: UnixTime): Meter
    requires period > 0 && m.start <= now
  {
    var k := PeriodIndex(m.start, period, expiry, now);
    if k == 0 then m
    else
      assert k * period >= 0;
      Meter(m.start + k * period, 0)
  }

  /** The allowance check: what it accepts, and the meter it leaves. */
  function Charge(amount: U64, cap: U64, period: U64, m: Meter, expiry: I64, now: UnixTime): Result<Meter> {
    if amount == 0 then Err(InvalidAmount) else
    :- Need(!IsExpired(expiry, now), DelegationExpired);
    :- Need(0 < period <= I64_MAX, InvalidPeriodLength);
    :- Need(m.start <= now, DelegationNotStarted);
    var advanced := Advance(m, period, expiry, now);
    :- Need(advanced.pulled <= cap, ArithmeticUnderflow);
    :- Need(amount <= cap - advanced.pulled, AmountExceedsPeriodLimit);
    Ok(advanced.(pulled := advanced.pulled + amount))
  }

  /** What Rust's checked `i64` operations test. */
  predicate FitsI64(x: int) {
    I64_MIN <= x <= I64_MAX
  }

  /** Rust's `as i64` on a `u64`: the same bits, so the upper half turns negative. */
  function AsI64(x: U64): I64 {
    if x <= I64_MAX then x else x - 0x1_0000_0000_0000_0000
  }

  /** Rust's division, which rounds towards zero. */
  function Quotient(x: int, y: int): int
    requires y != 0
  {
    if x >= 0 then x / y else -(-x / y)
  }

  /**
   * The program's own check, branch by branch, on its two in-out counters. No checked operation
   * fails: every error it returns is one `Charge` names.
   */
  method ValidateRecurringTransfer(amount: U64, cap: U64, period: U64, start0: Time, pulled0: U64,
                                   expiry: I64, now: UnixTime)
    returns (r: Result<()>, start: Time, pulled: U64)
    ensures match Charge(amount, cap, period, Meter(start0, pulled0), expiry, now)
            case Ok(m) => r == Ok(()) && m == Meter(start, pulled)
            case Err(e) => r == Err(e)
  {
    hide PeriodIndex, Advance;
    start, pulled := start0, pulled0;
    :- Need(amount != 0, InvalidAmount);
    :- Need(!IsExpired(expiry, now), DelegationExpired);
    :- Need(period <= I64_MAX, InvalidPeriodLength);
    :- Need(period != 0, InvalidPeriodLength);
    :- Need(now >= start, DelegationNotStarted);
    var elapsed := now - start;
    DivBounds(elapsed, period);
    if elapsed >= period {
      var passed := elapsed / period;
      var increment := passed * period;
      if !FitsI64(increment) { return Err(ArithmeticOverflow), start, pulled; }
      var candidate := start + increment;
      if !FitsI64(candidate) { return Err(ArithmeticOverflow), start, pulled; }
      assert passed >= 1 by { if passed <= 0 { MulMonotone(passed, 0, period); } }
      if expiry == 0 || candidate < expiry {
        UncappedIndex(start0, period, expiry, now);
        AdvanceTo(Meter(start0, pulled0), period, expiry, now, passed);
        start, pulled := candidate, 0;
      } else {
        CappedIndex(start0, period, expiry, now);
        AdvanceTo(Meter(start0, pulled0), period, expiry, now, passed - 1);
        var lastBillable := expiry - 1;
        if !FitsI64(lastBillable) { return Err(ArithmeticUnderflow), start, pulled; }
        if lastBillable >= start {
          var span := lastBillable - start;
          if !FitsI64(span) { return Err(ArithmeticUnderflow), start, pulled; }
          var inBounds := span / period;
          DivBounds(span, period);
          assert inBounds >= 0;
          var step := inBounds * period;
          if !FitsI64(step) { return Err(ArithmeticOverflow), start, pulled; }
          var lastStart := start + step;
          if !FitsI64(lastStart) { return Err(ArithmeticOverflow), start, pulled; }
          assert lastStart > start <==> inBounds > 0 by {
            if inBounds > 0 { MulMonotone(1, inBounds, period); }
          }
          if lastStart > start {
            start, pulled := lastStart, 0;
          }
        }
      }
    } else {
      SameIndex(start0, period, expiry, now);
      AdvanceTo(Meter(start0, pulled0), period, expiry, now, 0);
    }
    assert Meter(start, pulled) == Advance(Meter(start0, pulled0), period, expiry, now);
    :- Need(pulled <= cap, ArithmeticUnderflow);
    :- Need(amount <= cap - pulled, AmountExceedsPeriodLimit);
    pulled := pulled + amount;
    r := Ok(());
  }

  lemma SameIndex(start: int, period: int, expiry: int, now: int)
    requires period > 0 && start <= now < start + period
    ensures PeriodIndex(start, period, expiry, now) == 0
  {
    DivUnique(now - start, period, 0);
  }

  lemma AdvanceTo(m: Meter, period: int, expiry: int, now: UnixTime, k: nat)
    requires period > 0 && m.start <= now && PeriodIndex(m.start, period, expiry, now) == k
    ensures Advance(m, period, expiry, now) == if k == 0 then m else Meter(m.start + k * period, 0)
    ensures m.start + k * period <= now
  {
    MulMonotone(0, k, period);
  }

  lemma UncappedIndex(start: int, period: int, expiry: int, now: int)
    requires period > 0 && start <= now
    requires expiry == 0 || start + (now - start) / period * period < expiry
    ensures PeriodIndex(start, period, expiry, now) == (now - start) / period
  {
    var q := (now - start) / period;
    DivBounds(now - start, period);
    assert q >= 0;
    if expiry != 0 {
      MulMonotone(0, q, period);
      DivUnique(q * period, period, q);
      DivMonotone(q * period, expiry - 1 - start, period);
    }
  }

  /** The capped branch is reached only at one instant: now, the next boundary and the expiry coincide. */
  lemma CappedIndex(start: int, period: int, expiry: I64, now: int)
    requires period > 0 && start + period <= now
    requires expiry != 0 && !IsExpired(expiry, now)
    requires start + (now - start) / period * period >= expiry
    ensures now == expiry == start + (now - start) / period * period
    ensures PeriodIndex(start, period, expiry, now) == (expiry - 1 - start) / period == (now - start) / period - 1
  {
    DivBounds(now - start, period);
    var q := (now - start) / period;
    assert (q - 1) * period == q * period - period;
    DivUnique(expiry - 1 - start, period, q - 1);
  }
}
