/** What recurring permissions can be charged over whole runs: per ledger, per time span, per horizon. */
module Allowance {
  import opened Types
  import opened Metering
  import opened Ledger
  import opened Program
  import opened Invariant
  import opened Steps
  import opened Runs
  import opened Plans

  predicate Metered(acc: Account) {
    acc.Recurring? || acc.Subscription?
  }

  /** A recurring delegation, or a subscription whose plan incarnation is still there. */
  predicate HasHorizon(s: State, a: Address) {
    a in s.accounts && (s.accounts[a].Recurring? || (s.accounts[a].Subscription? && PlanMatches(s, s.accounts[a])))
  }

  /** How one step moves the meter of a permission that stays open. */
  ghost predicate MeterMoves(s: State, s': State, x: Account, y: Account, pulled: nat)
    requires Metered(x)
  {
    Metered(y) && Cap(y) == Cap(x) && Length(y) == Length(x) &&
    if pulled == 0 then MeterOf(y) == MeterOf(x)
    else
      pulled <= U64_MAX && 0 < Length(x) <= I64_MAX && s'.now == s.now && MayPull(s, x) &&
      Charge(pulled, Cap(x), Length(x), MeterOf(x), Horizon(s, x), s.now) == Ok(MeterOf(y))
  }

  lemma MeterStep(s: State, tx: Tx, a: Address)
    requires Inv(s) && a in s.accounts && Metered(s.accounts[a]) && a in Exec(s, tx).accounts
    ensures Inv(Exec(s, tx)) && Next(s, tx, Exec(s, tx))
    ensures MeterMoves(s, Exec(s, tx), s.accounts[a], Exec(s, tx).accounts[a], PulledBy(s, tx, a))
  {
    hide Step;
    Observe(s, tx, a);
  }

  // --- Any span of time ---------------------------------------------------------------------------

  /** A charge advances by whole periods and never leaves `now` more than one period behind. */
  lemma ChargeMoves(amount: U64, cap: U64, period: U64, m: Meter, expiry: I64, now: UnixTime)
    requires 0 < period <= I64_MAX && m.pulled <= cap && Charge(amount, cap, period, m, expiry, now).Ok?
    ensures var m' := Charge(amount, cap, period, m, expiry, now).value;
            var k := PeriodIndex(m.start, period, expiry, now);
            m'.start == m.start + k * period && m'.start <= now <= m'.start + period &&
            amount <= m'.pulled <= cap &&
            m.pulled + amount <= cap * k + m'.pulled
  {
    var k := PeriodIndex(m.start, period, expiry, now);
    if k > 0 { MulMonotone(1, k, cap); }
  }

  lemma ElapsedShift(start: int, period: int, T: int, k: nat)
    requires period > 0 && start + k * period <= T
    ensures start <= T && Elapsed(start, period, T) == Elapsed(start + k * period, period, T) + k
  {
    MulMonotone(0, k, period);
    DivShift(T - start, period, k);
  }

  lemma Distribute(c: int, n: int, k: int)
    ensures c * (n + k) == c * n + c * k
  {
  }

  /** If the charges after this one fit from the new period start, all of them fit from the old one. */
  lemma SpanArithmetic(amount: U64, cap: U64, period: U64, m: Meter, expiry: I64, now: UnixTime, T: int, rest: nat)
    requires 0 < period <= I64_MAX && m.pulled <= cap && now <= T
    requires Charge(amount, cap, period, m, expiry, now).Ok?
    requires var m' := Charge(amount, cap, period, m, expiry, now).value;
             m'.start <= T && rest + m'.pulled <= cap * Elapsed(m'.start, period, T) + cap
    ensures amount + rest + m.pulled <= cap * Elapsed(m.start, period, T) + cap
  {
    var k := PeriodIndex(m.start, period, expiry, now);
    ChargeMoves(amount, cap, period, m, expiry, now);
    ElapsedShift(m.start, period, T, k);
    Distribute(cap, Elapsed(m.start + k * period, period, T), k);
  }

  /** Within one period of a charge at most two period starts are in play. */
  lemma TwoCapsArithmetic(amount: nat, cap: nat, period: int, start: int, pulled: nat, now: int, T: int, rest: nat)
    requires period > 0 && amount <= pulled && start <= now <= start + period && now <= T < now + period
    requires rest + pulled <= cap * Elapsed(start, period, T) + cap
    ensures amount + rest <= 2 * cap
  {
    var n := Elapsed(start, period, T);
    if n >= 2 { MulMonotone(2, n, period); }
    MulMonotone(n, 1, cap);
  }

  lemma MeterBounds(s: State, a: Address)
    requires Inv(s) && a in s.accounts && Metered(s.accounts[a])
    ensures var x := s.accounts[a]; 0 < Length(x) <= I64_MAX && x.pulled <= Cap(x)
  {
    assert AccountOk(s, a, s.accounts[a]);
  }

  lemma OneCapLeft(cap: nat, pulled: nat, n: nat)
    requires pulled <= cap
    ensures pulled <= cap * n + cap
  {
    MulMonotone(0, n, cap);
  }

  /**
   * By time `T` at most one cap per started period, counted from the stored period start, less what
   * that period has already given.
   */
  lemma {:induction false} SpanBound(s: State, txs: seq<Tx>, a: Address)
    requires Inv(s) && a in s.accounts && Metered(s.accounts[a]) && s.accounts[a].periodStart <= Run(s, txs).now
    ensures var x := s.accounts[a];
            Length(x) > 0 &&
            PullTotal(s, txs, a) + x.pulled <= Cap(x) * Elapsed(x.periodStart, Length(x), Run(s, txs).now) + Cap(x)
    decreases |txs|
  {
    hide Step, Charge, Inv;
    var x := s.accounts[a];
    MeterBounds(s, a);
    OneCapLeft(Cap(x), x.pulled, Elapsed(x.periodStart, Length(x), Run(s, txs).now));
    if |txs| > 0 {
      var s' := Exec(s, txs[0]);
      NextInv(s, txs[0]);
      RunClock(s', txs[1..]);
      if a in s'.accounts {
        MeterStep(s, txs[0], a);
        var amount := PulledBy(s, txs[0], a);
        if amount > 0 { ChargeMoves(amount, Cap(x), Length(x), MeterOf(x), Horizon(s, x), s.now); }
        SpanBound(s', txs[1..], a);
        if amount > 0 {
          SpanArithmetic(amount, Cap(x), Length(x), MeterOf(x), Horizon(s, x), s.now, Run(s, txs).now,
                         PullTotal(s', txs[1..], a));
        }
      } else {
        Observe(s, txs[0], a);
      }
    }
  }

  /** Any run shorter than one period pulls at most two caps. */
  lemma {:induction false} TwoCapsPerPeriod(s: State, txs: seq<Tx>, a: Address)
    requires Inv(s) && a in s.accounts && Metered(s.accounts[a])
    requires Run(s, txs).now < s.now + Length(s.accounts[a])
    ensures PullTotal(s, txs, a) <= 2 * Cap(s.accounts[a])
    decreases |txs|
  {
    hide Step;
    if |txs| > 0 {
      var s' := Exec(s, txs[0]);
      var x := s.accounts[a];
      NextInv(s, txs[0]);
      if a in s'.accounts {
        var y := s'.accounts[a];
        MeterStep(s, txs[0], a);
        var amount := PulledBy(s, txs[0], a);
        if amount == 0 {
          TwoCapsPerPeriod(s', txs[1..], a);
        } else {
          assert AccountOk(s, a, x);
          ChargeMoves(amount, Cap(x), Length(x), MeterOf(x), Horizon(s, x), s.now);
          RunClock(s', txs[1..]);
          SpanBound(s', txs[1..], a);
          TwoCapsArithmetic(amount, Cap(x), Length(x), y.periodStart, y.pulled, s.now, Run(s, txs).now,
                            PullTotal(s', txs[1..], a));
        }
      } else {
        Observe(s, txs[0], a);
      }
    }
  }

  // --- Up to a finite horizon ------------------------------------------------------------------------

  /** The end of the permission as the run last saw it: it may be set or shortened on the way. */
  ghost function LastHorizon(s: State, txs: seq<Tx>, a: Address): I64
    requires HasHorizon(s, a)
    decreases |txs|
  {
    if |txs| > 0 && HasHorizon(Exec(s, txs[0]), a) then LastHorizon(Exec(s, txs[0]), txs[1..], a)
    else Horizon(s, s.accounts[a])
  }

  /** The stored start is `j` whole periods after `first`, and still before the horizon. */
  ghost predicate OnSchedule(s: State, a: Address, first: Time, j: nat)
    requires HasHorizon(s, a)
  {
    var x := s.accounts[a];
    x.periodStart == first + j * Length(x) && Within(x.periodStart, first, Horizon(s, x))
  }

  /** A horizon that moves moves to at least one period ahead of the clock. */
  lemma HorizonMoves(s: State, tx: Tx, a: Address)
    requires Inv(s) && HasHorizon(s, a) && a in Exec(s, tx).accounts
    ensures s.accounts[a].Subscription? && !HasHorizon(Exec(s, tx), a) ==> !PlanMatches(Exec(s, tx), s.accounts[a])
    ensures HasHorizon(Exec(s, tx), a) ==>
              var e, e' := Horizon(s, s.accounts[a]), Horizon(Exec(s, tx), Exec(s, tx).accounts[a]);
              e' == e ||
              (s.accounts[a].Subscription? && e' != 0 && s.now + Length(s.accounts[a]) <= e' && (e != 0 ==> e' < e))
  {
    hide Step;
    Observe(s, tx, a);
    var x := s.accounts[a];
    if x.Subscription? && PlanMatches(Exec(s, tx), x) { PlanSeen(s, tx, Exec(s, tx), x); }
  }

  lemma LastStarted(first: Time, j: nat, period: int, expiry: I64)
    requires period > 0 && Within(first + j * period, first, expiry) && expiry != 0
    ensures j <= LastPeriod(first, period, expiry)
  {
    if j > 0 {
      MulMonotone(1, j, period);
      DivMonotone(j * period, expiry - 1 - first, period);
      DivUnique(j * period, period, j);
    }
  }

  /** One charge moves along the schedule. */
  lemma ChargeOnSchedule(amount: U64, cap: U64, period: U64, m: Meter, expiry: I64, now: UnixTime, first: Time, j: nat)
    requires 0 < period <= I64_MAX && m.pulled <= cap && Charge(amount, cap, period, m, expiry, now).Ok?
    requires m.start == first + j * period && Within(m.start, first, expiry)
    ensures var m' := Charge(amount, cap, period, m, expiry, now).value;
            var j' := j + PeriodIndex(m.start, period, expiry, now);
            m'.start == first + j' * period && Within(m'.start, first, expiry) &&
            cap * j + m.pulled + amount <= cap * j' + m'.pulled
  {
    var k := PeriodIndex(m.start, period, expiry, now);
    ChargeMoves(amount, cap, period, m, expiry, now);
    assert (j + k) * period == j * period + k * period;
    assert cap * (j + k) == cap * j + cap * k;
  }

  /** The meter after a step, pulling or not, is on the schedule if it was before. */
  lemma MeterOnSchedule(amount: nat, cap: U64, period: U64, m: Meter, m': Meter, expiry: I64, now: UnixTime,
                        first: Time, j: nat) returns (i: nat)
    requires 0 < period <= I64_MAX && m.pulled <= cap
    requires if amount == 0 then m' == m
             else amount <= U64_MAX && Charge(amount, cap, period, m, expiry, now) == Ok(m')
    requires m.start == first + j * period && Within(m.start, first, expiry)
    ensures m'.start == first + i * period && Within(m'.start, first, expiry)
    ensures cap * j + m.pulled + amount <= cap * i + m'.pulled
  {
    hide Charge;
    i := j;
    if amount > 0 {
      ChargeOnSchedule(amount, cap, period, m, expiry, now, first, j);
      i := j + PeriodIndex(m.start, period, expiry, now);
    }
  }

  /** One step keeps the permission on its schedule, and what it pulls within the periods it passes. */
  lemma HorizonStep(s: State, tx: Tx, a: Address, first: Time, j: nat) returns (i: nat)
    requires Inv(s) && HasHorizon(s, a) && OnSchedule(s, a, first, j) && HasHorizon(Exec(s, tx), a)
    ensures var x, y := s.accounts[a], Exec(s, tx).accounts[a];
            Inv(Exec(s, tx)) && OnSchedule(Exec(s, tx), a, first, i) && Cap(y) == Cap(x) && Length(y) == Length(x) &&
            Cap(x) * j + x.pulled + PulledBy(s, tx, a) <= Cap(x) * i + y.pulled
  {
    hide Step, Charge;
    var x, y := s.accounts[a], Exec(s, tx).accounts[a];
    assert AccountOk(s, a, x);
    MeterStep(s, tx, a);
    HorizonSeen(s, tx, a);
    i := MeterOnSchedule(PulledBy(s, tx, a), Cap(x), Length(x), MeterOf(x), MeterOf(y), Horizon(s, x), s.now, first, j);
  }

  lemma {:induction false} HorizonBound(s: State, txs: seq<Tx>, a: Address, first: Time, j: nat)
    requires Inv(s) && HasHorizon(s, a) && OnSchedule(s, a, first, j)
    ensures var x, e := s.accounts[a], LastHorizon(s, txs, a);
            Length(x) > 0 &&
            (e != 0 ==>
               Cap(x) * j + x.pulled + PullTotal(s, txs, a) <= Cap(x) * LastPeriod(first, Length(x), e) + Cap(x))
    decreases |txs|
  {
    hide Step;
    assert AccountOk(s, a, s.accounts[a]);
    if |txs| > 0 && HasHorizon(Exec(s, txs[0]), a) {
      hide OnSchedule;
      var i := HorizonStep(s, txs[0], a, first, j);
      HorizonBound(Exec(s, txs[0]), txs[1..], a, first, i);
    } else {
      HorizonLost(s, txs, a);
      if LastHorizon(s, txs, a) != 0 { WithinHorizon(s, a, first, j); }
    }
  }

  /** The current period is one of those the horizon allows. */
  lemma WithinHorizon(s: State, a: Address, first: Time, j: nat)
    requires Inv(s) && HasHorizon(s, a) && OnSchedule(s, a, first, j) && Horizon(s, s.accounts[a]) != 0
    ensures var x, e := s.accounts[a], Horizon(s, s.accounts[a]);
            Length(x) > 0 && Cap(x) * j + x.pulled <= Cap(x) * LastPeriod(first, Length(x), e) + Cap(x)
  {
    hide Step;
    var x, e := s.accounts[a], Horizon(s, s.accounts[a]);
    assert AccountOk(s, a, x);
    LastStarted(first, j, Length(x), e);
    MulMonotone(j, LastPeriod(first, Length(x), e), Cap(x));
  }

  /** When the horizon is not seen again, nothing more is pulled. */
  lemma HorizonLost(s: State, txs: seq<Tx>, a: Address)
    requires Inv(s) && HasHorizon(s, a) && (|txs| > 0 ==> !HasHorizon(Exec(s, txs[0]), a))
    ensures PullTotal(s, txs, a) == 0
  {
    if |txs| > 0 {
      var s' := Exec(s, txs[0]);
      Observe(s, txs[0], a);
      if a in s'.accounts {
        HorizonMoves(s, txs[0], a);
        ConsentKept(s, txs[0], a);
        GoneNeverBills(s', txs[1..], a);
        LostPlanNoPull(s, txs[0], a);
      }
    }
  }

  /** The step that takes the plan away is not a pull. */
  lemma LostPlanNoPull(s: State, tx: Tx, a: Address)
    requires Inv(s) && a in s.accounts && s.accounts[a].Subscription? && PlanMatches(s, s.accounts[a])
    requires a in Exec(s, tx).accounts && !PlanMatches(Exec(s, tx), s.accounts[a])
    ensures PulledBy(s, tx, a) == 0
  {
    hide Step;
    if Step(s, tx).Ok? { StepSound(s, tx); }
    var plan := s.accounts[a].header.delegatee;
    assert PulledBy(s, tx, a) > 0 ==> At(Exec(s, tx), plan) == At(s, plan);
  }

  /** Periods that start strictly before `end`, counting at least one. */
  function BillablePeriods(first: int, period: int, end: int): int
    requires period > 0
  {
    var up := (end - first + period - 1) / period;
    if up < 1 then 1 else up
  }

  lemma BillableIsLast(first: int, period: int, end: int)
    requires period > 0
    ensures BillablePeriods(first, period, end) == LastPeriod(first, period, end) + 1
  {
    DivShift(end - 1 - first, period, -1);
    if end - 1 < first {
      DivMonotone(end - 1 - first, -1, period);
      DivUnique(-1, period, -1);
    } else {
      DivMonotone(0, end - 1 - first, period);
    }
  }

  /** Counted from the stored start, a finite horizon leaves one cap per billable period. */
  lemma FromStoredStart(s: State, txs: seq<Tx>, a: Address)
    requires Inv(s) && HasHorizon(s, a)
    ensures var x, e := s.accounts[a], LastHorizon(s, txs, a);
            Length(x) > 0 &&
            (e != 0 ==>
               x.pulled + PullTotal(s, txs, a) <= Cap(x) * BillablePeriods(x.periodStart, Length(x), e))
  {
    hide Step;
    var x, e := s.accounts[a], LastHorizon(s, txs, a);
    HorizonBound(s, txs, a, x.periodStart, 0);
    BillableIsLast(x.periodStart, Length(x), e);
    Distribute(Cap(x), LastPeriod(x.periodStart, Length(x), e), 1);
  }

  /**
   * A subscription with a finite end pulls, over its whole life, at most one amount per period that
   * starts before the end, whenever and however often that end was set or shortened.
   */
  lemma SubscriptionHorizon(s: State, subscribe: Tx, txs: seq<Tx>)
    requires Inv(s) && subscribe.ix.Subscribe? && Step(s, subscribe).Ok?
    ensures HasHorizon(Exec(s, subscribe), subscribe.ix.subscription)
    ensures var s', a := Exec(s, subscribe), subscribe.ix.subscription;
            var period, end := subscribe.ix.expectedPeriodHours * SECS_PER_HOUR, LastHorizon(s', txs, a);
            period > 0 &&
            (end != 0 ==>
               PullTotal(s', txs, a) <= subscribe.ix.expectedAmount * BillablePeriods(s.now, period, end))
  {
    NextInv(s, subscribe);
    SubscribeFacts(s, subscribe);
    FromStoredStart(Exec(s, subscribe), txs, subscribe.ix.subscription);
  }

  /** The same bound for a recurring delegation, whose expiry is fixed. */
  lemma DelegationHorizon(s: State, txs: seq<Tx>, a: Address)
    requires Inv(s) && a in s.accounts && s.accounts[a].Recurring? && s.accounts[a].expiryTs != 0
    ensures var d := s.accounts[a];
            d.periodLength > 0 &&
            PullTotal(s, txs, a) + d.pulled <= d.cap * BillablePeriods(d.periodStart, d.periodLength, d.expiryTs)
  {
    hide Step;
    FixedHorizon(s, txs, a);
    FromStoredStart(s, txs, a);
  }

  lemma {:induction false} FixedHorizon(s: State, txs: seq<Tx>, a: Address)
    requires Inv(s) && a in s.accounts && s.accounts[a].Recurring?
    ensures LastHorizon(s, txs, a) == s.accounts[a].expiryTs
    decreases |txs|
  {
    hide Step;
    if |txs| > 0 {
      Observe(s, txs[0], a);
      if a in Exec(s, txs[0]).accounts { FixedHorizon(Exec(s, txs[0]), txs[1..], a); }
    }
  }

  // --- The on-chain meter stands for the eager ledger -------------------------------------------------

  /** The ledger a run posts for the permission at `a`: each pull under its own period index. */
  ghost function Posted(s: State, txs: seq<Tx>, a: Address, first: Time, b: Book): Book
    requires Inv(s)
    decreases |txs|
  {
    NextInvAlways(s, txs);
    if |txs| == 0 || a !in s.accounts then b
    else
      var amount := PulledBy(s, txs[0], a);
      Posted(Exec(s, txs[0]), txs[1..], a, first,
             if 0 < amount <= U64_MAX && HasHorizon(s, a) && first <= s.now && 0 < Length(s.accounts[a]) <= I64_MAX
             then EagerPost(b, first, Length(s.accounts[a]), amount, Horizon(s, s.accounts[a]), s.now)
             else b)
  }

  lemma NextInvAlways(s: State, txs: seq<Tx>)
    requires Inv(s)
    ensures |txs| > 0 ==> Inv(Exec(s, txs[0]))
  {
    if |txs| > 0 { NextInv(s, txs[0]); }
  }

  ghost predicate Represents(s: State, a: Address, first: Time, b: Book)
    requires a in s.accounts && Metered(s.accounts[a])
  {
    var x := s.accounts[a];
    0 < Length(x) <= I64_MAX &&
    (exists j: nat :: StandsAt(MeterOf(x), j, b, first, Length(x), Cap(x))) &&
    (x.periodStart == first || x.periodStart <= s.now) &&
    (HasHorizon(s, a) ==> Within(x.periodStart, first, Horizon(s, x)))
  }

  /** One step keeps the stored pair in step with the ledger. */
  lemma RepresentsStep(s: State, tx: Tx, a: Address, first: Time, b: Book)
    requires Inv(s) && a in s.accounts && Metered(s.accounts[a]) && Represents(s, a, first, b)
    requires a in Exec(s, tx).accounts
    ensures Metered(Exec(s, tx).accounts[a])
    ensures var amount := PulledBy(s, tx, a);
            if amount == 0 then Represents(Exec(s, tx), a, first, b)
            else
              amount <= U64_MAX && HasHorizon(s, a) && first <= s.now &&
              Represents(Exec(s, tx), a, first,
                         EagerPost(b, first, Length(s.accounts[a]), amount, Horizon(s, s.accounts[a]), s.now))
  {
    hide Step;
    var s' := Exec(s, tx);
    var x, y := s.accounts[a], s'.accounts[a];
    var amount := PulledBy(s, tx, a);
    MeterStep(s, tx, a);
    HorizonSeen(s, tx, a);
    var j: nat :| StandsAt(MeterOf(x), j, b, first, Length(x), Cap(x));
    if amount == 0 {
      assert StandsAt(MeterOf(y), j, b, first, Length(y), Cap(y));
    } else {
      ChargeIsEager(MeterOf(x), j, b, first, Length(x), Cap(x), amount, Horizon(s, x), s.now);
      var b' := EagerPost(b, first, Length(x), amount, Horizon(s, x), s.now);
      assert StandsAt(MeterOf(y), PeriodIndex(first, Length(x), Horizon(s, x), s.now), b', first, Length(y), Cap(y));
    }
  }

  /** A horizon seen after a step was there before it. */
  lemma HorizonSeen(s: State, tx: Tx, a: Address)
    requires Inv(s) && a in s.accounts && Metered(s.accounts[a]) && a in Exec(s, tx).accounts
    ensures HasHorizon(Exec(s, tx), a) ==> HasHorizon(s, a)
    ensures HasHorizon(Exec(s, tx), a) ==>
              var e, e' := Horizon(s, s.accounts[a]), Horizon(Exec(s, tx), Exec(s, tx).accounts[a]);
              e' == e || s.now + Length(s.accounts[a]) <= e'
    ensures PulledBy(s, tx, a) > 0 && HasHorizon(Exec(s, tx), a) ==>
              Horizon(s, s.accounts[a]) == Horizon(Exec(s, tx), Exec(s, tx).accounts[a])
  {
    hide Step;
    Observe(s, tx, a);
    var x := s.accounts[a];
    if x.Subscription? && HasHorizon(Exec(s, tx), a) {
      ConsentKept(s, tx, a);
      PlanSeen(s, tx, Exec(s, tx), x);
      HorizonMoves(s, tx, a);
      if PulledBy(s, tx, a) > 0 {
        StepSound(s, tx);
        assert At(Exec(s, tx), x.header.delegatee) == At(s, x.header.delegatee);
      }
    }
  }

  lemma {:induction false} RunRepresents(s: State, txs: seq<Tx>, a: Address, first: Time, b: Book)
    requires Inv(s) && StaysOpen(s, txs, a) && Metered(s.accounts[a]) && Represents(s, a, first, b)
    ensures a in Run(s, txs).accounts && Metered(Run(s, txs).accounts[a])
    ensures Represents(Run(s, txs), a, first, Posted(s, txs, a, first, b))
    decreases |txs|
  {
    hide Step;
    if |txs| > 0 {
      RepresentsStep(s, txs[0], a, first, b);
      NextInv(s, txs[0]);
      var amount := PulledBy(s, txs[0], a);
      RunRepresents(Exec(s, txs[0]), txs[1..], a, first,
                    if amount == 0 then b
                    else EagerPost(b, first, Length(s.accounts[a]), amount, Horizon(s, s.accounts[a]), s.now));
    }
  }

  /**
   * Whatever has happened since the permission was fresh, the stored (start, pulled) pair accepts an
   * amount exactly when a ledger with one entry and one cap per period accepts it.
   */
  lemma LedgerDecides(s: State, txs: seq<Tx>, a: Address, amount: U64)
    requires Inv(s) && StaysOpen(s, txs, a) && HasHorizon(s, a) && s.accounts[a].pulled == 0
    requires a in Run(s, txs).accounts && HasHorizon(Run(s, txs), a)
    ensures var x, t := s.accounts[a], Run(s, txs);
            var y := t.accounts[a];
            0 < Length(y) <= I64_MAX && Length(y) == Length(x) && Cap(y) == Cap(x) &&
            (Charge(amount, Cap(y), Length(y), MeterOf(y), Horizon(t, y), t.now).Ok? <==>
             EagerAccepts(Posted(s, txs, a, x.periodStart, map[]), x.periodStart, Length(y), Cap(y), amount,
                          Horizon(t, y), t.now))
  {
    hide Step;
    var x := s.accounts[a];
    assert AccountOk(s, a, x);
    assert StandsAt(MeterOf(x), 0, map[], x.periodStart, Length(x), Cap(x));
    RunRepresents(s, txs, a, x.periodStart, map[]);
    CapKept(s, txs, a);
    var t := Run(s, txs);
    var y := t.accounts[a];
    var b := Posted(s, txs, a, x.periodStart, map[]);
    var j: nat :| StandsAt(MeterOf(y), j, b, x.periodStart, Length(y), Cap(y));
    ChargeIsEager(MeterOf(y), j, b, x.periodStart, Length(y), Cap(y), amount, Horizon(t, y), t.now);
  }

  lemma {:induction false} CapKept(s: State, txs: seq<Tx>, a: Address)
    requires Inv(s) && StaysOpen(s, txs, a) && Metered(s.accounts[a])
    ensures a in Run(s, txs).accounts && Metered(Run(s, txs).accounts[a])
    ensures Cap(Run(s, txs).accounts[a]) == Cap(s.accounts[a])
    ensures Length(Run(s, txs).accounts[a]) == Length(s.accounts[a])
    decreases |txs|
  {
    hide Step;
    if |txs| > 0 {
      MeterStep(s, txs[0], a);
      CapKept(Exec(s, txs[0]), txs[1..], a);
    }
  }
}
