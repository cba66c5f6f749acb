/** The coordinator of the energy generation report. From the billing
    readings of one config entry it derives a list of contiguous billing
    periods with their grid, solar and balance figures; it aggregates the solar
    sensor's recorded states into daily totals; it serves the latest period's
    figure to each report sensor and keeps the list of listeners to notify. */
module ReportSensor {
  import opened Wrappers
  import opened Calendar
  import opened ReportStore

  const DefaultMinimumBillingKwh: real := 100.0
  const DefaultInitialBalance: real := 0.0
  const DefaultBillingPeriodDays: int := 30

  /** The settings of a config entry the coordinator reads with `.get(key,
      default)`; a missing setting takes its default. */
  datatype EntryConfig = EntryConfig(
    initialBalance: Option<real>,
    initialGridConsumption: Option<real>,
    initialGridInjection: Option<real>,
    minimumBillingKwh: Option<real>,
    billingPeriodDays: Option<int>)

  function InitialBalance(o: EntryConfig): real { o.initialBalance.GetOr(DefaultInitialBalance) }
  function InitialGridConsumption(o: EntryConfig): real { o.initialGridConsumption.GetOr(0.0) }
  function InitialGridInjection(o: EntryConfig): real { o.initialGridInjection.GetOr(0.0) }
  function MinimumBillingKwh(o: EntryConfig): real { o.minimumBillingKwh.GetOr(DefaultMinimumBillingKwh) }
  function BillingPeriodDays(o: EntryConfig): int { o.billingPeriodDays.GetOr(DefaultBillingPeriodDays) }

  /** One entry of `_periods`, keyed by its end date. */
  datatype Period = Period(
    start: Day,
    end: Day,
    solarGeneration: real,
    gridConsumption: real,
    gridInjection: real,
    totalConsumption: real,
    solarConsumption: real,
    balanceChange: real,
    cumulativeBalance: real)

  // ---------------------------------------------------------------------------
  // Solar generation of a period

  /** The solar kWh counted for one day: the manual entry when there is one,
      else the sensor's daily total, else nothing. */
  function DaySolar(manual: map<Day, SolarRecord>, sensor: map<Day, real>, d: Day): real {
    if d in manual then manual[d].solarGenerationKwh
    else if d in sensor then sensor[d]
    else 0.0
  }

  /** The sum of `DaySolar` over the inclusive range [start, end]. */
  function SolarSum(manual: map<Day, SolarRecord>, sensor: map<Day, real>, start: Day, end: Day): (total: real)
    ensures (forall d :: start <= d <= end ==> DaySolar(manual, sensor, d) >= 0.0) ==> total >= 0.0
    ensures start == end ==> total == DaySolar(manual, sensor, start)
    decreases end - start
  {
    if start > end then 0.0 else SolarSum(manual, sensor, start, end - 1) + DaySolar(manual, sensor, end)
  }

  /** Adjacent ranges add up. */
  lemma {:induction false} SolarSumSplit(manual: map<Day, SolarRecord>, sensor: map<Day, real>, a: Day, b: Day, c: Day)
    requires a <= b + 1 <= c + 1
    ensures SolarSum(manual, sensor, a, c) == SolarSum(manual, sensor, a, b) + SolarSum(manual, sensor, b + 1, c)
    decreases c - b
  {
    if c > b {
      SolarSumSplit(manual, sensor, a, b, c - 1);
    }
  }

  lemma {:induction false} SolarSumConstant(manual: map<Day, SolarRecord>, sensor: map<Day, real>, a: Day, b: Day, v: real)
    requires a <= b + 1
    requires forall d :: a <= d <= b ==> d in manual && manual[d].solarGenerationKwh == v
    ensures SolarSum(manual, sensor, a, b) == (b - a + 1) as real * v
    decreases b - a
  {
    if a <= b {
      SolarSumConstant(manual, sensor, a, b - 1, v);
    }
  }

  /** After `add_solar_period_data` the days of the range add back up to the
      total entered, whatever the sensor reported on those days. */
  lemma SpreadAddsUpToTotal(m: map<Day, SolarRecord>, sensor: map<Day, real>, start: Day, end: Day, total: real, now: Instant)
    requires start <= end
    ensures SolarSum(Spread(m, start, end, PeriodRecord(start, end, total, now)), sensor, start, end) == total
  {
    var rec := PeriodRecord(start, end, total, now);
    var n := DaysIn(start, end) as real;
    SolarSumConstant(Spread(m, start, end, rec), sensor, start, end, rec.solarGenerationKwh);
    assert n * (total / n) == total;
  }

  // ---------------------------------------------------------------------------
  // Billing periods

  /** The figures of one period from its grid deltas, its solar generation and
      the running balance before it. Consumption above the minimum billing is
      charged against the injected energy. */
  function MakePeriod(start: Day, end: Day, solar: real, consumption: real, injection: real,
                      minimum: real, cumulativeBefore: real): (p: Period)
    ensures p.start == start && p.end == end && p.solarGeneration == solar
    ensures p.gridConsumption == consumption && p.gridInjection == injection
    ensures p.totalConsumption == p.gridConsumption + p.solarConsumption
    ensures p.solarConsumption == p.solarGeneration - p.gridInjection
    ensures p.balanceChange <= p.gridInjection
    ensures p.balanceChange == p.gridInjection - (if consumption > minimum then consumption - minimum else 0.0)
    ensures p.cumulativeBalance == cumulativeBefore + p.balanceChange
  {
    var billable := if consumption - minimum > 0.0 then consumption - minimum else 0.0;
    var change := injection - billable;
    Period(start, end, solar, consumption, injection,
           consumption + (solar - injection), solar - injection, change, cumulativeBefore + change)
  }

  /** What `_calculate_periods` reads: the entry's settings, its billing
      readings and manual solar data, the sensor's daily totals, and the
      billing dates in the order the loop visits them. */
  datatype Readings = Readings(
    config: EntryConfig,
    billing: map<Day, BillingRecord>,
    manual: map<Day, SolarRecord>,
    sensor: map<Day, real>,
    keys: seq<Day>)

  predicate AllBilled(r: Readings) {
    forall i :: 0 <= i < |r.keys| ==> r.keys[i] in r.billing
  }

  /** The start of the `i`-th period: the day after the previous end date, or
      for the first period `billing_period_days - 1` days before its end. */
  function StartOf(r: Readings, i: int): Day
    requires 0 <= i < |r.keys|
  {
    if i == 0 then r.keys[0] - (BillingPeriodDays(r.config) - 1) else r.keys[i - 1] + 1
  }

  /** The meter readings before the `i`-th period: the previous reading, or
      the configured initial value before the first one. */
  function ConsumptionBefore(r: Readings, i: int): real
    requires AllBilled(r) && 0 <= i <= |r.keys|
  {
    if i == 0 then InitialGridConsumption(r.config) else r.billing[r.keys[i - 1]].gridConsumptionReading
  }

  function InjectionBefore(r: Readings, i: int): real
    requires AllBilled(r) && 0 <= i <= |r.keys|
  {
    if i == 0 then InitialGridInjection(r.config) else r.billing[r.keys[i - 1]].gridInjectionReading
  }

  /** The first `n` periods `_calculate_periods` derives, in order. */
  function PeriodsUpTo(r: Readings, n: nat): (ps: seq<Period>)
    requires AllBilled(r) && n <= |r.keys|
    ensures |ps| == n
  {
    if n == 0 then []
    else
      var prev := PeriodsUpTo(r, n - 1);
      var i := n - 1;
      var start := StartOf(r, i);
      var rec := r.billing[r.keys[i]];
      prev + [MakePeriod(start, r.keys[i], SolarSum(r.manual, r.sensor, start, r.keys[i]),
                         rec.gridConsumptionReading - ConsumptionBefore(r, i),
                         rec.gridInjectionReading - InjectionBefore(r, i),
                         MinimumBillingKwh(r.config),
                         if i == 0 then InitialBalance(r.config) else prev[i - 1].cumulativeBalance)]
  }

  /** All the periods, one per billing date. */
  function Periods(r: Readings): (ps: seq<Period>)
    requires AllBilled(r)
  {
    PeriodsUpTo(r, |r.keys|)
  }

  lemma {:induction false} PeriodsPrefix(r: Readings, m: nat, k: nat)
    requires AllBilled(r) && k <= m <= |r.keys|
    ensures PeriodsUpTo(r, m)[..k] == PeriodsUpTo(r, k)
    decreases m
  {
    if k < m {
      var prev := PeriodsUpTo(r, m - 1);
      assert PeriodsUpTo(r, m)[..k] == prev[..k];
      PeriodsPrefix(r, m - 1, k);
    }
  }

  /** The variables of the loop of `_calculate_periods` after `i` readings. */
  ghost predicate Calculated(r: Readings, i: nat, result: seq<Period>, cumulativeBalance: real,
                             prevConsumption: real, prevInjection: real, prevEnd: Option<Day>)
    requires AllBilled(r) && i <= |r.keys|
  {
    && result == PeriodsUpTo(r, i)
    && prevConsumption == ConsumptionBefore(r, i)
    && prevInjection == InjectionBefore(r, i)
    && prevEnd == (if i == 0 then None else Some(r.keys[i - 1]))
    && cumulativeBalance == (if i == 0 then InitialBalance(r.config) else result[i - 1].cumulativeBalance)
  }

  /** Each period ends at its reading's date, starts right after the previous
      one (the first spans `billing_period_days` days), takes its grid figures
      as differences of consecutive readings and its solar figure from the
      days it spans, and carries the running balance forward. */
  lemma PeriodAt(r: Readings, i: nat)
    requires AllBilled(r) && i < |r.keys|
    ensures var ps := Periods(r);
      && ps[i] == MakePeriod(StartOf(r, i), r.keys[i], SolarSum(r.manual, r.sensor, StartOf(r, i), r.keys[i]),
                             r.billing[r.keys[i]].gridConsumptionReading - ConsumptionBefore(r, i),
                             r.billing[r.keys[i]].gridInjectionReading - InjectionBefore(r, i),
                             MinimumBillingKwh(r.config),
                             if i == 0 then InitialBalance(r.config) else ps[i - 1].cumulativeBalance)
      && ps[i].end == r.keys[i]
      && ps[i].start == StartOf(r, i)
      && ps[i].gridConsumption == r.billing[r.keys[i]].gridConsumptionReading - ConsumptionBefore(r, i)
      && ps[i].gridInjection == r.billing[r.keys[i]].gridInjectionReading - InjectionBefore(r, i)
      && ps[i].solarGeneration == SolarSum(r.manual, r.sensor, ps[i].start, ps[i].end)
      && ps[i].cumulativeBalance
           == (if i == 0 then InitialBalance(r.config) else ps[i - 1].cumulativeBalance) + ps[i].balanceChange
  {
    var ps := Periods(r);
    PeriodsPrefix(r, |r.keys|, i + 1);
    PeriodsPrefix(r, |r.keys|, i);
    assert ps[i] == PeriodsUpTo(r, i + 1)[i];
    assert i > 0 ==> ps[i - 1] == PeriodsUpTo(r, i)[i - 1];
  }

  /** The `i`-th period ends at the `i`-th billing date. */
  lemma PeriodEnds(r: Readings)
    requires AllBilled(r)
    ensures |Periods(r)| == |r.keys|
    ensures forall i :: 0 <= i < |r.keys| ==> Periods(r)[i].end == r.keys[i]
  {
    forall i | 0 <= i < |r.keys|
      ensures Periods(r)[i].end == r.keys[i]
    {
      PeriodAt(r, i);
    }
  }

  /** Consecutive periods are contiguous. */
  lemma PeriodsContiguous(r: Readings)
    requires AllBilled(r) && r.keys != []
    ensures var ps := Periods(r);
      && ps[0].start == ps[0].end - (BillingPeriodDays(r.config) - 1)
      && forall i :: 0 < i < |ps| ==> ps[i].start == ps[i - 1].end + 1
  {
    var ps := Periods(r);
    PeriodAt(r, 0);
    forall i | 0 < i < |ps|
      ensures ps[i].start == ps[i - 1].end + 1
    {
      PeriodAt(r, i);
      PeriodAt(r, i - 1);
    }
  }

  /** The inputs of `_calculate_periods` for one entry: its billing dates in date order. */
  ghost function EntryReadings(o: EntryConfig, data: EntryData, sensor: map<Day, real>): (r: Readings)
    ensures AllBilled(r)
  {
    SortedDaysSpec(data.billing.Keys);
    Readings(o, data.billing, data.manualSolar, sensor, SortedDays(data.billing.Keys))
  }

  /** An entry's billing dates are visited each once, in increasing order. */
  lemma EntryReadingsKeys(o: EntryConfig, data: EntryData, sensor: map<Day, real>)
    ensures var keys := EntryReadings(o, data, sensor).keys;
      && Increasing(keys)
      && |keys| == |data.billing|
      && forall d :: d in keys <==> d in data.billing
  {
    SortedDaysSpec(data.billing.Keys);
    assert |data.billing.Keys| == |data.billing|;
  }

  /** The periods of one entry. */
  ghost function EntryPeriods(o: EntryConfig, data: EntryData, sensor: map<Day, real>): seq<Period> {
    Periods(EntryReadings(o, data, sensor))
  }

  function SumConsumption(ps: seq<Period>): real {
    if ps == [] then 0.0 else SumConsumption(ps[..|ps| - 1]) + ps[|ps| - 1].gridConsumption
  }

  function SumInjection(ps: seq<Period>): real {
    if ps == [] then 0.0 else SumInjection(ps[..|ps| - 1]) + ps[|ps| - 1].gridInjection
  }

  function SumBalanceChange(ps: seq<Period>): real {
    if ps == [] then 0.0 else SumBalanceChange(ps[..|ps| - 1]) + ps[|ps| - 1].balanceChange
  }

  function SumSolar(ps: seq<Period>): real {
    if ps == [] then 0.0 else SumSolar(ps[..|ps| - 1]) + ps[|ps| - 1].solarGeneration
  }

  /** The per-period grid figures telescope: over the first `n` periods they
      add up to the `n`-th reading minus the configured initial reading. */
  lemma {:induction false} GridTelescopes(r: Readings, n: nat)
    requires AllBilled(r) && 1 <= n <= |r.keys|
    ensures SumConsumption(PeriodsUpTo(r, n))
      == r.billing[r.keys[n - 1]].gridConsumptionReading - InitialGridConsumption(r.config)
    ensures SumInjection(PeriodsUpTo(r, n))
      == r.billing[r.keys[n - 1]].gridInjectionReading - InitialGridInjection(r.config)
  {
    var ps := PeriodsUpTo(r, n);
    assert ps[..n - 1] == PeriodsUpTo(r, n - 1);
    if n > 1 {
      GridTelescopes(r, n - 1);
    }
  }

  /** The balance after every period is the initial balance plus the balance
      changes of that period and all earlier ones. */
  lemma {:induction false} CumulativeIsRunningSum(r: Readings, n: nat)
    requires AllBilled(r) && 1 <= n <= |r.keys|
    ensures PeriodsUpTo(r, n)[n - 1].cumulativeBalance == InitialBalance(r.config) + SumBalanceChange(PeriodsUpTo(r, n))
  {
    var ps := PeriodsUpTo(r, n);
    assert ps[..n - 1] == PeriodsUpTo(r, n - 1);
    if n > 1 {
      CumulativeIsRunningSum(r, n - 1);
    }
  }

  predicate Increasing(keys: seq<Day>) {
    forall i, j :: 0 <= i < j < |keys| ==> keys[i] < keys[j]
  }

  /** With a period length of at least one day and increasing end dates, the
      solar figures of the first `n` periods add up to the solar sum over the
      days they span. */
  lemma {:induction false} SolarCoversSpan(r: Readings, n: nat)
    requires AllBilled(r) && 1 <= n <= |r.keys| && Increasing(r.keys) && BillingPeriodDays(r.config) >= 1
    ensures SumSolar(PeriodsUpTo(r, n)) == SolarSum(r.manual, r.sensor, StartOf(r, 0), r.keys[n - 1])
  {
    var ps := PeriodsUpTo(r, n);
    assert ps[..n - 1] == PeriodsUpTo(r, n - 1);
    if n > 1 {
      SolarCoversSpan(r, n - 1);
      assert r.keys[0] <= r.keys[n - 2];
      SolarSumSplit(r.manual, r.sensor, StartOf(r, 0), r.keys[n - 2], r.keys[n - 1]);
    }
  }

  // ---------------------------------------------------------------------------
  // Sorting the billing dates

  lemma NonEmpty(s: set<Day>)
    requires s != {}
    ensures exists d :: d in s
  {
    if forall d :: d !in s {
      assert false;
    }
  }

  lemma {:induction false} MinExists(s: set<Day>)
    requires s != {}
    ensures exists m :: m in s && forall d :: d in s ==> m <= d
  {
    NonEmpty(s);
    var x :| x in s;
    var rest := s - {x};
    if rest == {} {
      assert s == {x};
    } else {
      MinExists(rest);
      var m :| m in rest && forall d :: d in rest ==> m <= d;
      var w := if x < m then x else m;
      forall d | d in s
        ensures w <= d
      {
        if d != x {
          assert d in rest;
        }
      }
      assert w in s;
    }
  }

  /** The dates of `s` in increasing order: `sorted(billing_data.items())`
      (ISO date strings sort as the dates do). */
  ghost function SortedDays(s: set<Day>): seq<Day>
    decreases |s|
  {
    if s == {} then []
    else
      MinExists(s);
      var m :| m in s && forall d :: d in s ==> m <= d;
      [m] + SortedDays(s - {m})
  }

  /** The earliest date comes first. */
  lemma SortedDaysHead(s: set<Day>, m: Day)
    requires m in s && forall d :: d in s ==> m <= d
    ensures SortedDays(s) == [m] + SortedDays(s - {m})
  {
  }

  lemma IncreasingCons(m: Day, r: seq<Day>)
    requires Increasing(r) && forall d :: d in r ==> m < d
    ensures Increasing([m] + r)
  {
    var r' := [m] + r;
    forall i, j | 0 <= i < j < |r'|
      ensures r'[i] < r'[j]
    {
      if i == 0 {
        assert r'[j] == r[j - 1] && r[j - 1] in r;
      } else {
        assert r'[i] == r[i - 1] && r'[j] == r[j - 1];
      }
    }
  }

  /** The sorted dates are increasing and are exactly the dates of `s`. */
  lemma {:induction false} SortedDaysSpec(s: set<Day>)
    ensures Increasing(SortedDays(s))
    ensures forall d :: d in SortedDays(s) <==> d in s
    ensures |SortedDays(s)| == |s|
    decreases |s|
  {
    if s != {} {
      MinExists(s);
      var m :| m in s && forall d :: d in s ==> m <= d;
      var rest := SortedDays(s - {m});
      SortedDaysSpec(s - {m});
      SortedDaysHead(s, m);
      IncreasingCons(m, rest);
    }
  }

  /** Sorting by repeatedly taking the earliest remaining date. */
  method SortDays(s: set<Day>) returns (r: seq<Day>)
    ensures r == SortedDays(s)
  {
    r := [];
    var rest := s;
    while rest != {}
      invariant r + SortedDays(rest) == SortedDays(s)
      decreases |rest|
    {
      MinExists(rest);
      var m :| m in rest && forall d :: d in rest ==> m <= d;
      SortedDaysHead(rest, m);
      r, rest := r + [m], rest - {m};
    }
  }

  // ---------------------------------------------------------------------------
  // Daily totals of the solar sensor (`_load_solar_data`)

  /** A recorded state of the solar sensor; anything `float()` rejects is `NotNumeric`. */
  datatype StateValue = Unknown | Unavailable | NoState | NotNumeric | Numeric(value: real)

  datatype RecordedState = RecordedState(day: Day, state: StateValue)

  /** The variables of the aggregation loop. */
  datatype Aggregate = Aggregate(totals: map<Day, real>, current: Option<Day>, previous: Option<real>)

  /** `x or 0` on an optional float: None and 0.0 are both falsy. */
  function OrZero(x: Option<real>): real {
    if x.Some? && x.value != 0.0 then x.value else 0.0
  }

  /** Python's `max(a, b)`: the first argument unless the second is larger. */
  function MaxOf(a: real, b: real): real {
    if b > a then b else a
  }

  /** One iteration of the loop: invalid states are skipped; a new date
      closes the previous date's total; the same date keeps the maximum. */
  function Step(a: Aggregate, s: RecordedState): Aggregate {
    if !s.state.Numeric? then a
    else if a.current != Some(s.day) then
      var closed := if a.current.Some? && a.previous.Some? then a.totals[a.current.value := a.previous.value] else a.totals;
      Aggregate(closed, Some(s.day), Some(s.state.value))
    else Aggregate(a.totals, a.current, Some(MaxOf(OrZero(a.previous), s.state.value)))
  }

  /** Some valid state recorded on day `d` reads `v`. */
  predicate IsReadingOf(rows: seq<RecordedState>, d: Day, v: real) {
    exists i :: 0 <= i < |rows| && rows[i].day == d && rows[i].state == Numeric(v)
  }

  function Fold(rows: seq<RecordedState>): (a: Aggregate)
    ensures a.current.Some? <==> a.previous.Some?
    ensures a.current.Some? ==> IsReadingOf(rows, a.current.value, a.previous.value)
    ensures forall d :: d in a.totals ==> IsReadingOf(rows, d, a.totals[d])
  {
    if rows == [] then Aggregate(map[], None, None)
    else
      var init := rows[..|rows| - 1];
      assert forall i :: 0 <= i < |init| ==> init[i] == rows[i];
      Step(Fold(init), rows[|rows| - 1])
  }

  /** `daily_totals` after the loop and the closing of the last date: whatever
      the order of the rows, every total is a valid reading of its own date. */
  function DailyTotals(rows: seq<RecordedState>): (totals: map<Day, real>)
    ensures forall d :: d in totals ==> IsReadingOf(rows, d, totals[d])
  {
    var a := Fold(rows);
    if a.current.Some? && a.previous.Some? then a.totals[a.current.value := a.previous.value] else a.totals
  }

  /** The largest valid reading recorded on day `d`, None when there is none. */
  function DayMax(rows: seq<RecordedState>, d: Day): Option<real> {
    if rows == [] then None
    else
      var m := DayMax(rows[..|rows| - 1], d);
      var s := rows[|rows| - 1];
      if s.state.Numeric? && s.day == d then Some(if m.Some? then MaxOf(m.value, s.state.value) else s.state.value)
      else m
  }

  /** `DayMax` is the maximum of the valid readings of the day. */
  lemma {:induction false} DayMaxIsMaximum(rows: seq<RecordedState>, d: Day)
    ensures DayMax(rows, d).None? <==> forall i :: 0 <= i < |rows| && rows[i].day == d ==> !rows[i].state.Numeric?
    ensures DayMax(rows, d).Some? ==>
      (forall i :: 0 <= i < |rows| && rows[i].day == d && rows[i].state.Numeric? ==> rows[i].state.value <= DayMax(rows, d).value)
      && exists i :: 0 <= i < |rows| && rows[i].day == d && rows[i].state == Numeric(DayMax(rows, d).value)
  {
    if rows != [] {
      var n := |rows| - 1;
      DayMaxIsMaximum(rows[..n], d);
      assert forall i :: 0 <= i < n ==> rows[..n][i] == rows[i];
      if DayMax(rows[..n], d).Some? {
        var i :| 0 <= i < n && rows[..n][i].day == d && rows[..n][i].state == Numeric(DayMax(rows[..n], d).value);
        assert rows[i].state == Numeric(DayMax(rows[..n], d).value);
      }
    }
  }

  /** Recorded states come ordered by time, so their dates never decrease. */
  predicate Chronological(rows: seq<RecordedState>) {
    forall i, j :: 0 <= i < j < |rows| ==> rows[i].day <= rows[j].day
  }

  lemma {:induction false} FoldInvariant(rows: seq<RecordedState>)
    requires Chronological(rows)
    ensures var a := Fold(rows);
      && (a.current.None? ==> a.previous.None? && forall d :: DayMax(rows, d).None?)
      && (a.current.Some? ==> a.previous.Some? && a.previous == DayMax(rows, a.current.value))
      && (a.current.Some? ==> forall d :: DayMax(rows, d).Some? ==> d <= a.current.value)
      && (forall d :: d in a.totals <==> DayMax(rows, d).Some? && a.current != Some(d))
      && (forall d :: d in a.totals ==> a.totals[d] == DayMax(rows, d).value)
  {
    if rows != [] {
      var n := |rows| - 1;
      var init := rows[..n];
      var s := rows[n];
      assert Chronological(init);
      FoldInvariant(init);
      var a := Fold(init);
      if s.state.Numeric? && a.current.Some? {
        var c := a.current.value;
        DayMaxIsMaximum(init, c);
        var i :| 0 <= i < n && init[i].day == c && init[i].state == Numeric(DayMax(init, c).value);
        assert rows[i].day == c;
        assert c <= s.day;
      }
    }
  }

  /** `daily_totals` holds, for exactly the dates with a valid reading, the
      largest valid reading of that date; the last date is not lost. */
  lemma DailyTotalsAreDayMaxima(rows: seq<RecordedState>)
    requires Chronological(rows)
    ensures forall d :: d in DailyTotals(rows) <==> DayMax(rows, d).Some?
    ensures forall d :: d in DailyTotals(rows) ==> DailyTotals(rows)[d] == DayMax(rows, d).value
  {
    FoldInvariant(rows);
  }

  /** The aggregation loop of `_load_solar_data` over the query result. */
  method AggregateDaily(rows: seq<RecordedState>) returns (totals: map<Day, real>)
    ensures totals == DailyTotals(rows)
  {
    totals := map[];
    var previous: Option<real> := None;
    var current: Option<Day> := None;
    var i := 0;
    while i < |rows|
      invariant 0 <= i <= |rows|
      invariant Aggregate(totals, current, previous) == Fold(rows[..i])
    {
      assert rows[..i + 1][..i] == rows[..i];
      var s := rows[i];
      if s.state.Numeric? {
        var value := s.state.value;
        if current != Some(s.day) {
          if current.Some? && previous.Some? {
            totals := totals[current.value := previous.value];
          }
          current := Some(s.day);
          previous := Some(value);
        } else {
          previous := Some(MaxOf(OrZero(previous), value));
        }
      }
      i := i + 1;
    }
    assert rows[..i] == rows;
    if current.Some? && previous.Some? {
      totals := totals[current.value := previous.value];
    }
  }

  // ---------------------------------------------------------------------------
  // The latest period and the sensor figures

  /** `max(periods.values(), key=end_date)`: the first period with the latest end. */
  function Latest(ps: seq<Period>): (p: Period)
    requires ps != []
    ensures p in ps
    ensures forall q :: q in ps ==> q.end <= p.end
  {
    if |ps| == 1 then ps[0]
    else
      var best := Latest(ps[..|ps| - 1]);
      assert forall q :: q in ps ==> q in ps[..|ps| - 1] || q == ps[|ps| - 1];
      if ps[|ps| - 1].end > best.end then ps[|ps| - 1] else best
  }

  const SensorTypes: seq<string> := [
    "monthly_solar_generation", "monthly_grid_consumption", "monthly_grid_injection",
    "monthly_total_consumption", "monthly_solar_consumption", "cumulative_balance"]

  /** The figure a report sensor of type `sensorType` shows; None for an unknown type. */
  function FieldOf(p: Period, sensorType: string): (r: Option<real>)
    ensures r.Some? <==> sensorType in SensorTypes
  {
    if sensorType == "monthly_solar_generation" then Some(p.solarGeneration)
    else if sensorType == "monthly_grid_consumption" then Some(p.gridConsumption)
    else if sensorType == "monthly_grid_injection" then Some(p.gridInjection)
    else if sensorType == "monthly_total_consumption" then Some(p.totalConsumption)
    else if sensorType == "monthly_solar_consumption" then Some(p.solarConsumption)
    else if sensorType == "cumulative_balance" then Some(p.cumulativeBalance)
    else None
  }

  /** For periods derived from increasing end dates, the latest period is the last one. */
  lemma LatestIsLast(r: Readings)
    requires AllBilled(r) && r.keys != [] && Increasing(r.keys)
    ensures var ps := Periods(r);
      Latest(ps) == ps[|ps| - 1]
  {
    var ps := Periods(r);
    var n := |ps| - 1;
    PeriodEnds(r);
    var p := Latest(ps);
    var i :| 0 <= i < |ps| && ps[i] == p;
    assert ps[n] in ps;
    assert i == n;
  }

  // ---------------------------------------------------------------------------
  // The coordinator

  /** A registered update callback, identified by value. */
  type Listener = int

  /** `list.remove(x)`: drops the first occurrence of `x`. */
  function RemoveFirst(s: seq<Listener>, x: Listener): seq<Listener> {
    if s == [] then []
    else if s[0] == x then s[1..]
    else [s[0]] + RemoveFirst(s[1..], x)
  }

  lemma {:induction false} RemoveFirstAt(s: seq<Listener>, x: Listener, i: nat)
    requires i < |s| && s[i] == x && x !in s[..i]
    ensures RemoveFirst(s, x) == s[..i] + s[i + 1..]
  {
    if i > 0 {
      assert s[1..][..i - 1] == s[1..i];
      assert x !in s[1..][..i - 1];
      RemoveFirstAt(s[1..], x, i - 1);
      assert s[..i] == [s[0]] + s[1..i];
      assert s[i + 1..] == s[1..][i..];
    }
  }

  /** Removing a listener drops exactly one registration of it, keeps the
      others in order, and removing one that is not registered does nothing. */
  lemma {:induction false} RemoveFirstSpec(s: seq<Listener>, x: Listener)
    ensures x !in s ==> RemoveFirst(s, x) == s
    ensures multiset(RemoveFirst(s, x)) == multiset(s) - multiset{x}
  {
    if s != [] {
      RemoveFirstSpec(s[1..], x);
      assert s == [s[0]] + s[1..];
      assert multiset(s) == multiset{s[0]} + multiset(s[1..]);
      if s[0] != x {
        assert RemoveFirst(s, x) == [s[0]] + RemoveFirst(s[1..], x);
        assert multiset(RemoveFirst(s, x)) == multiset{s[0]} + (multiset(s[1..]) - multiset{x});
      }
    }
  }

  /** `EnergyReportCoordinator`: `periods` holds the values of the `_periods`
      dict in insertion order; each is keyed by its own end date. */
  class Coordinator {
    const entryId: string
    const config: EntryConfig
    var listeners: seq<Listener>
    var solarData: map<Day, real>
    var periods: seq<Period>

    constructor(entryId: string, config: EntryConfig)
      ensures this.entryId == entryId && this.config == config
      ensures listeners == [] && solarData == map[] && periods == []
    {
      this.entryId, this.config := entryId, config;
      listeners, solarData, periods := [], map[], [];
    }

    /** `async_add_listener`. */
    method AddListener(l: Listener)
      modifies this`listeners
      ensures listeners == old(listeners) + [l]
    {
      listeners := listeners + [l];
    }

    /** `async_remove_listener`. */
    method RemoveListener(l: Listener)
      modifies this`listeners
      ensures listeners == RemoveFirst(old(listeners), l)
    {
      if l in listeners {
        var i := 0;
        while listeners[i] != l
          invariant 0 <= i < |listeners|
          invariant l !in listeners[..i] && l in listeners[i..]
          decreases |listeners| - i
        {
          assert listeners[i..] == [listeners[i]] + listeners[i + 1..];
          assert listeners[..i + 1] == listeners[..i] + [listeners[i]];
          i := i + 1;
        }
        RemoveFirstAt(listeners, l, i);
        listeners := listeners[..i] + listeners[i + 1..];
      } else {
        RemoveFirstSpec(listeners, l);
      }
    }

    /** `_calculate_solar_for_period`. */
    method SolarForPeriod(manual: map<Day, SolarRecord>, start: Day, end: Day) returns (total: real)
      ensures total == SolarSum(manual, solarData, start, end)
    {
      total := 0.0;
      var current := start;
      while current <= end
        invariant start <= current <= (if start <= end then end + 1 else start)
        invariant total == SolarSum(manual, solarData, start, current - 1)
        decreases end - current
      {
        if current in manual {
          total := total + manual[current].solarGenerationKwh;
        } else if current in solarData {
          total := total + solarData[current];
        }
        current := current + 1;
      }
    }

    /** `_calculate_periods` over the entry's billing and manual solar data. */
    method CalculatePeriods(data: EntryData)
      modifies this`periods
      ensures periods == EntryPeriods(config, data, solarData)
    {
      var keys := SortDays(data.billing.Keys);
      var billing, manual := data.billing, data.manualSolar;
      ghost var r := Readings(config, billing, manual, solarData, keys);
      assert r == EntryReadings(config, data, solarData);
      var result: seq<Period> := [];
      var cumulativeBalance := InitialBalance(config);
      var prevConsumption := InitialGridConsumption(config);
      var prevInjection := InitialGridInjection(config);
      var prevEnd: Option<Day> := None;
      var i := 0;
      while i < |keys|
        invariant 0 <= i <= |keys|
        invariant Calculated(r, i, result, cumulativeBalance, prevConsumption, prevInjection, prevEnd)
      {
        var end := keys[i];
        var rec := billing[end];
        var start := if prevEnd.Some? then prevEnd.value + 1 else end - (BillingPeriodDays(config) - 1);
        var consumption := rec.gridConsumptionReading - prevConsumption;
        var injection := rec.gridInjectionReading - prevInjection;
        var solar := SolarForPeriod(manual, start, end);
        var p := MakePeriod(start, end, solar, consumption, injection, MinimumBillingKwh(config), cumulativeBalance);
        result := result + [p];
        cumulativeBalance := p.cumulativeBalance;
        prevConsumption, prevInjection, prevEnd := rec.gridConsumptionReading, rec.gridInjectionReading, Some(end);
        i := i + 1;
      }
      periods := result;
    }

    /** `_handle_data_update`: a data event of this entry recomputes the
      periods; events of other entries are ignored. */
    method HandleDataUpdate(eventEntryId: Option<string>, data: EntryData)
      modifies this`periods
      ensures eventEntryId == Some(entryId) ==> periods == EntryPeriods(config, data, solarData)
      ensures eventEntryId != Some(entryId) ==> periods == old(periods)
    {
      if eventEntryId == Some(entryId) {
        CalculatePeriods(data);
      }
    }

    /** `_load_solar_data`: nothing happens without billing data or without a
      recorder; otherwise the daily totals of the recorded states replace the
      solar data. */
    method LoadSolarData(billing: map<Day, BillingRecord>, recorderAvailable: bool, rows: seq<RecordedState>)
      modifies this`solarData
      ensures billing == map[] || !recorderAvailable ==> solarData == old(solarData)
      ensures billing != map[] && recorderAvailable ==> solarData == DailyTotals(rows)
    {
      if billing == map[] || !recorderAvailable {
        return;
      }
      solarData := AggregateDaily(rows);
    }

    /** `async_initialize`: load the solar data, then compute the periods from it. */
    method Initialize(data: EntryData, recorderAvailable: bool, rows: seq<RecordedState>)
      modifies this`solarData, this`periods
      ensures data.billing == map[] || !recorderAvailable ==> solarData == old(solarData)
      ensures data.billing != map[] && recorderAvailable ==> solarData == DailyTotals(rows)
      ensures periods == EntryPeriods(config, data, solarData)
    {
      LoadSolarData(data.billing, recorderAvailable, rows);
      CalculatePeriods(data);
    }

    /** `get_current_period_value`: the figure of the latest period, None
      when there are no periods or the type is unknown. */
    function CurrentPeriodValue(sensorType: string): (r: Option<real>)
      reads this
      ensures periods == [] ==> r.None?
      ensures r.Some? <==> periods != [] && sensorType in SensorTypes
      ensures r.Some? ==> exists p :: p in periods && (forall q :: q in periods ==> q.end <= p.end)
                                     && r == FieldOf(p, sensorType)
    {
      if periods == [] then None else FieldOf(Latest(periods), sensorType)
    }
  }

  /** Without billing data there are no periods, so every sensor reads None. */
  lemma NoBillingNoPeriods(o: EntryConfig, manual: map<Day, SolarRecord>, sensor: map<Day, real>)
    ensures EntryPeriods(o, EntryData(map[], manual), sensor) == []
  {
  }

  /** An entry has one period per billing reading, and the periods end at
      exactly the billing dates. */
  lemma EntryPeriodsKeyed(o: EntryConfig, data: EntryData, sensor: map<Day, real>)
    ensures var ps := EntryPeriods(o, data, sensor);
      && |ps| == |data.billing|
      && forall d :: d in data.billing <==> exists i :: 0 <= i < |ps| && ps[i].end == d
  {
    var r := EntryReadings(o, data, sensor);
    var ps := Periods(r);
    PeriodEnds(r);
    EntryReadingsKeys(o, data, sensor);
    forall d
      ensures d in data.billing <==> exists i :: 0 <= i < |ps| && ps[i].end == d
    {
      if d in data.billing {
        var i :| 0 <= i < |r.keys| && r.keys[i] == d;
        assert ps[i].end == d;
      }
      if exists i :: 0 <= i < |ps| && ps[i].end == d {
        var i :| 0 <= i < |ps| && ps[i].end == d;
        assert r.keys[i] in r.keys;
      }
    }
  }

  /** An entry's periods come in increasing order of end date, so the latest
      period is the last one. */
  lemma EntryPeriodsOrdered(o: EntryConfig, data: EntryData, sensor: map<Day, real>)
    ensures var ps := EntryPeriods(o, data, sensor);
      && (forall i, j :: 0 <= i < j < |ps| ==> ps[i].end < ps[j].end)
      && (ps != [] ==> Latest(ps) == ps[|ps| - 1])
  {
    var r := EntryReadings(o, data, sensor);
    var ps := Periods(r);
    PeriodEnds(r);
    EntryReadingsKeys(o, data, sensor);
    forall i, j | 0 <= i < j < |ps|
      ensures ps[i].end < ps[j].end
    {
      assert r.keys[i] < r.keys[j];
    }
    if ps != [] {
      LatestIsLast(r);
    }
  }
}
