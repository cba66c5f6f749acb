/** The per-gang energy sensor of the switch energy estimator: on every switch
    transition it integrates power × time spent on, books the energy in a
    daily, weekly or monthly bucket, and resets its running total when a new
    period starts. Also the gang's power sensor and the friendly-name fallback. */
module SwitchSensor {
  import opened Wrappers
  import opened Text
  import opened Calendar

  const PeriodDaily: string := "daily"
  const PeriodWeekly: string := "weekly"
  const PeriodMonthly: string := "monthly"
  const StateOn: string := "on"
  const RecentCount: nat := 7

  /** A key of the historical map. The strings "%Y-%m-%d", "%Y-W%U" (of the
      week's Monday) and "%Y-%m" are one-to-one with a calendar day, a Monday and
      a year-month respectively, and strings of different shapes never collide. */
  datatype DateKey = DailyKey(day: Day) | WeeklyKey(monday: Day) | MonthlyKey(year: int, month: int)

  /** `_get_date_key`: the bucket an instant falls in; an unrecognised period
      falls back to the daily key. */
  function DateKeyFor(period: string, t: Instant): DateKey {
    if period == PeriodDaily then DailyKey(DayOf(t))
    else if period == PeriodWeekly then WeeklyKey(MondayOf(DayOf(t)))
    else if period == PeriodMonthly then
      var ym := CivilYearMonth(DayOf(t));
      MonthlyKey(ym.year, ym.month)
    else DailyKey(DayOf(t))
  }

  /** The key of a weekly period names the Monday starting the week of `t`, a
      monthly key a month 1..12, and every other period keys by the day. */
  lemma DateKeyShape(period: string, t: Instant)
    ensures var k := DateKeyFor(period, t);
      && (period == PeriodWeekly ==>
            k.WeeklyKey? && Weekday(k.monday) == 0 && k.monday <= DayOf(t) < k.monday + 7)
      && (period == PeriodMonthly ==> k.MonthlyKey? && 1 <= k.month <= 12)
      && (period != PeriodWeekly && period != PeriodMonthly ==> k == DailyKey(DayOf(t)))
  {
  }

  /** Daily keys (and those of an unrecognised period) identify the calendar day. */
  lemma DailyKeysAreDays(period: string, t1: Instant, t2: Instant)
    requires period != PeriodWeekly && period != PeriodMonthly
    ensures DateKeyFor(period, t1) == DateKeyFor(period, t2) <==> DayOf(t1) == DayOf(t2)
    ensures DateKeyFor(period, t1) == DailyKey(DayOf(t1))
  {
  }

  /** Weekly keys identify the week's Monday: all days from a Monday to the next
      Sunday share one key, and days of different weeks never do. */
  lemma WeeklyKeysAreWeeks(t1: Instant, t2: Instant)
    ensures DateKeyFor(PeriodWeekly, t1) == DateKeyFor(PeriodWeekly, t2)
      <==> MondayOf(DayOf(t1)) == MondayOf(DayOf(t2))
  {
  }

  lemma WeeklyKeyOfWeekDay(m: Day, t: Instant)
    requires Weekday(m) == 0 && m <= DayOf(t) < m + 7
    ensures DateKeyFor(PeriodWeekly, t) == WeeklyKey(m)
  {
    MondayOfWeek(m, DayOf(t));
  }

  /** Monthly keys identify the calendar year and month. */
  lemma MonthlyKeysAreMonths(t1: Instant, t2: Instant)
    ensures DateKeyFor(PeriodMonthly, t1) == DateKeyFor(PeriodMonthly, t2)
      <==> CivilYearMonth(DayOf(t1)) == CivilYearMonth(DayOf(t2))
  {
  }

  // ---------------------------------------------------------------------------
  // The historical map: a Python dict, so insertion order is part of its value

  datatype History = History(order: seq<DateKey>, values: map<DateKey, real>)

  const EmptyHistory: History := History([], map[])

  /** `order` lists every key of `values` once, in insertion order. */
  ghost predicate ValidHistory(h: History) {
    && (forall i, j :: 0 <= i < j < |h.order| ==> h.order[i] != h.order[j])
    && (forall k :: k in h.values <==> k in h.order)
  }

  /** `h[k] = v`: a new key goes to the end, an existing key keeps its place. */
  function Put(h: History, k: DateKey, v: real): (r: History)
    requires ValidHistory(h)
    ensures ValidHistory(r)
    ensures r.values == h.values[k := v]
    ensures r.order == if k in h.values then h.order else h.order + [k]
  {
    if k in h.values then History(h.order, h.values[k := v])
    else History(h.order + [k], h.values[k := v])
  }

  /** `_update_historical_data` on a value: bucket `k` grows by `e`, starting from 0. */
  function AddToBucket(h: History, k: DateKey, e: real): (r: History)
    requires ValidHistory(h)
    ensures ValidHistory(r)
    ensures k in r.values && r.values[k] == (if k in h.values then h.values[k] else 0.0) + e
    ensures forall k' :: k' != k ==> (k' in r.values <==> k' in h.values)
    ensures forall k' :: k' != k && k' in h.values ==> r.values[k'] == h.values[k']
  {
    var h1 := if k in h.values then h else Put(h, k, 0.0);
    Put(h1, k, h1.values[k] + e)
  }

  /** The `historical_data` attribute: absent for an empty map, otherwise the
      last `RecentCount` entries in insertion order. */
  function RecentHistory(h: History): (r: Option<seq<(DateKey, real)>>)
    requires ValidHistory(h)
    ensures r.None? <==> h.values == map[]
    ensures r.Some? ==> |r.value| == (if |h.order| < RecentCount then |h.order| else RecentCount)
    ensures r.Some? ==> forall i :: 0 <= i < |r.value| ==>
      var k := h.order[|h.order| - |r.value| + i];
      k in h.values && r.value[i] == (k, h.values[k])
  {
    if h.order == [] then
      assert forall k :: k !in h.values;
      None
    else
      assert h.order[0] in h.values;
      var tail := if |h.order| > RecentCount then h.order[|h.order| - RecentCount..] else h.order;
      assert forall i :: 0 <= i < |tail| ==> tail[i] in h.order;
      Some(seq(|tail|, i requires 0 <= i < |tail| => (tail[i], h.values[tail[i]])))
  }

  // ---------------------------------------------------------------------------
  // The integrator, as values

  /** The fields `_is_on`, `_last_changed`, `_energy_value` and `_historical_data`. */
  datatype Meter = Meter(isOn: bool, lastChanged: Option<Instant>, energy: real, history: History)

  /** Watt-hours used since the last transition: power × elapsed hours when the
      switch was on and a previous transition is known, otherwise nothing. */
  function Accrued(gangPower: real, m: Meter, now: Instant): (e: real)
    ensures !m.isOn || m.lastChanged.None? ==> e == 0.0
  {
    if m.lastChanged.Some? && m.isOn then gangPower * HoursBetween(m.lastChanged.value, now) else 0.0
  }

  /** A non-negative power rating never accrues negative energy over a forward interval. */
  lemma AccruedNonNegative(gangPower: real, m: Meter, now: Instant)
    requires gangPower >= 0.0 && m.lastChanged.Some? && m.lastChanged.value <= now
    ensures Accrued(gangPower, m, now) >= 0.0
  {
    if m.isOn {
      assert HoursBetween(m.lastChanged.value, now) >= 0.0;
    }
  }

  /** `_check_period_reset` on a value. */
  function Rollover(m: Meter, k: DateKey): (r: Meter)
    requires ValidHistory(m.history)
    ensures ValidHistory(r.history)
    ensures r.isOn == m.isOn && r.lastChanged == m.lastChanged
    ensures k in m.history.values ==> r == m
    ensures k !in m.history.values ==> r.energy == 0.0
    ensures k !in m.history.values && m.energy > 0.0 ==> k in r.history.values && r.history.values[k] == m.energy
    ensures k !in m.history.values && m.energy <= 0.0 ==> r.history == m.history
  {
    if k in m.history.values then m
    else
      var h := if m.energy > 0.0 then Put(m.history, k, m.energy) else m.history;
      m.(history := h, energy := 0.0)
  }

  /** `_update_from_switch_state` on a value: accrue, book, record the new state,
      then check for a period rollover at `now`. */
  function Transition(gangPower: real, period: string, m: Meter, state: string, now: Instant): (r: Meter)
    requires ValidHistory(m.history)
    ensures ValidHistory(r.history)
    ensures r.isOn == (state == StateOn) && r.lastChanged == Some(now)
  {
    var e := Accrued(gangPower, m, now);
    var k := DateKeyFor(period, now);
    var booked := if e > 0.0 then m.(energy := m.energy + e, history := AddToBucket(m.history, k, e)) else m;
    Rollover(booked.(isOn := state == StateOn, lastChanged := Some(now)), k)
  }

  /** Energy is added only when the switch was on, a previous transition is
      known and the amount is positive; it goes to both the running total and
      the bucket of `now`, and every other bucket is untouched. */
  lemma TransitionAccrues(gangPower: real, period: string, m: Meter, state: string, now: Instant)
    requires ValidHistory(m.history)
    requires Accrued(gangPower, m, now) > 0.0
    ensures m.lastChanged.Some? && m.isOn
    ensures var r := Transition(gangPower, period, m, state, now);
      var k := DateKeyFor(period, now);
      && r.energy == m.energy + gangPower * HoursBetween(m.lastChanged.value, now)
      && k in r.history.values
      && r.history.values[k] == (if k in m.history.values then m.history.values[k] else 0.0) + Accrued(gangPower, m, now)
      && (forall k' :: k' != k ==> (k' in r.history.values <==> k' in m.history.values))
      && (forall k' :: k' != k && k' in m.history.values ==> r.history.values[k'] == m.history.values[k'])
  {
  }

  /** Nothing accrued and the bucket of `now` already exists: only the switch
      state and the timestamp change. */
  lemma TransitionIdle(gangPower: real, period: string, m: Meter, state: string, now: Instant)
    requires ValidHistory(m.history)
    requires Accrued(gangPower, m, now) <= 0.0
    requires DateKeyFor(period, now) in m.history.values
    ensures Transition(gangPower, period, m, state, now) == m.(isOn := state == StateOn, lastChanged := Some(now))
  {
  }

  /** A reset: nothing was accrued in this update and the bucket of `now` does
      not exist yet. The running total is then archived under the key of the
      NEW period, not the one it was earned in, and drops to 0. */
  lemma TransitionResets(gangPower: real, period: string, m: Meter, state: string, now: Instant)
    requires ValidHistory(m.history)
    requires Accrued(gangPower, m, now) <= 0.0 && DateKeyFor(period, now) !in m.history.values
    ensures var r := Transition(gangPower, period, m, state, now);
      var k := DateKeyFor(period, now);
      && r.energy == 0.0
      && r.history == (if m.energy > 0.0 then Put(m.history, k, m.energy) else m.history)
  {
  }

  /** The reset fires only in that case: a positive accrual creates the bucket
      of `now` before the check, so whenever the bucket is missing afterwards or
      the total moved other than by the accrual, both conditions held. */
  lemma ResetOnlyWhenIdle(gangPower: real, period: string, m: Meter, state: string, now: Instant)
    requires ValidHistory(m.history)
    requires DateKeyFor(period, now) !in Transition(gangPower, period, m, state, now).history.values
      || Transition(gangPower, period, m, state, now).energy != m.energy + (if Accrued(gangPower, m, now) > 0.0 then Accrued(gangPower, m, now) else 0.0)
    ensures Accrued(gangPower, m, now) <= 0.0
    ensures DateKeyFor(period, now) !in m.history.values
  {
  }

  /** `_energy_value` never decreases except by a reset to exactly 0. */
  lemma EnergyGrowsOrResets(gangPower: real, period: string, m: Meter, state: string, now: Instant)
    requires ValidHistory(m.history)
    ensures var r := Transition(gangPower, period, m, state, now);
      r.energy >= m.energy || r.energy == 0.0
  {
  }

  /** An on-interval of H hours at power P > 0 adds P × H Wh to the running
      total, even across a period boundary: the positive accrual creates the
      bucket of `now` first, so the reset check that follows finds it. */
  lemma OnIntervalEnergy(gangPower: real, period: string, m: Meter, t0: Instant, t1: Instant, state: string)
    requires ValidHistory(m.history)
    requires m.isOn && m.lastChanged == Some(t0) && t0 < t1 && gangPower > 0.0
    ensures Transition(gangPower, period, m, state, t1).energy
      == m.energy + gangPower * HoursBetween(t0, t1)
  {
    assert HoursBetween(t0, t1) > 0.0;
    assert gangPower * HoursBetween(t0, t1) > 0.0;
  }

  // ---------------------------------------------------------------------------
  // SwitchEnergyStatisticsSensor

  class EnergySensor {
    const gangPower: real
    const period: string
    var isOn: bool
    var lastChanged: Option<Instant>
    var lastState: Option<string>
    var energy: real
    var history: History

    ghost predicate Valid()
      reads this
    {
      ValidHistory(history)
    }

    ghost function Snapshot(): Meter
      reads this
    {
      Meter(isOn, lastChanged, energy, history)
    }

    constructor(gangPower: real, period: string)
      ensures Valid()
      ensures this.gangPower == gangPower && this.period == period
      ensures Snapshot() == Meter(false, None, 0.0, EmptyHistory) && lastState == None
    {
      this.gangPower := gangPower;
      this.period := period;
      isOn := false;
      lastChanged := None;
      lastState := None;
      energy := 0.0;
      history := EmptyHistory;
    }

    /** `_update_historical_data`. */
    method UpdateHistoricalData(e: real, t: Instant)
      requires Valid()
      modifies this`history
      ensures Valid()
      ensures history == AddToBucket(old(history), DateKeyFor(period, t), e)
    {
      var key := DateKeyFor(period, t);
      if key !in history.values {
        history := Put(history, key, 0.0);
      }
      history := Put(history, key, history.values[key] + e);
    }

    /** `_check_period_reset`. */
    method CheckPeriodReset(now: Instant)
      requires Valid()
      modifies this`history, this`energy
      ensures Valid()
      ensures Snapshot() == Rollover(old(Snapshot()), DateKeyFor(period, now))
    {
      var currentKey := DateKeyFor(period, now);
      if currentKey !in history.values {
        if energy > 0.0 {
          history := Put(history, currentKey, energy);
        }
        energy := 0.0;
      }
    }

    /** `_update_from_switch_state`, with the clock reading passed in as `now`. */
    method UpdateFromSwitchState(state: string, now: Instant)
      requires Valid()
      modifies this
      ensures Valid()
      ensures Snapshot() == Transition(gangPower, period, old(Snapshot()), state, now)
      ensures lastState == Some(state)
    {
      ghost var m0 := Snapshot();
      ghost var e := Accrued(gangPower, m0, now);
      ghost var key := DateKeyFor(period, now);
      if lastChanged.Some? && isOn {
        var hours := HoursBetween(lastChanged.value, now);
        var consumed := gangPower * hours;
        assert consumed == e;
        if consumed > 0.0 {
          energy := energy + consumed;
          UpdateHistoricalData(consumed, now);
        }
      }
      ghost var booked := if e > 0.0 then m0.(energy := m0.energy + e, history := AddToBucket(m0.history, key, e)) else m0;
      assert Snapshot() == booked;
      isOn := state == StateOn;
      lastState := Some(state);
      lastChanged := Some(now);
      assert Snapshot() == booked.(isOn := state == StateOn, lastChanged := Some(now));
      CheckPeriodReset(now);
    }

    /** `_handle_switch_state_change`: an event without a new state is ignored. */
    method HandleSwitchStateChange(newState: Option<string>, now: Instant)
      requires Valid()
      modifies this
      ensures Valid()
      ensures newState.None? ==> Snapshot() == old(Snapshot()) && lastState == old(lastState)
      ensures newState.Some? ==> Snapshot() == Transition(gangPower, period, old(Snapshot()), newState.value, now)
      ensures newState.Some? ==> lastState == newState
    {
      if newState.Some? {
        UpdateFromSwitchState(newState.value, now);
      }
    }

    /** The `historical_data` entry of `extra_state_attributes`. */
    function RecentAttribute(): (r: Option<seq<(DateKey, real)>>)
      reads this
      requires Valid()
      ensures r.None? <==> history.values == map[]
      ensures r.Some? ==> 0 < |r.value| <= RecentCount
      ensures r.Some? ==> var last := history.order[|history.order| - 1];
        last in history.values && r.value[|r.value| - 1] == (last, history.values[last])
    {
      RecentHistory(history)
    }
  }

  // ---------------------------------------------------------------------------
  // SwitchPowerSensor

  /** `native_value` of the power sensor: the gang's power while on, 0 W while off. */
  function PowerReading(isOn: bool, gangPower: real): (w: real)
    ensures gangPower >= 0.0 ==> 0.0 <= w <= gangPower
    ensures w == gangPower <==> isOn || gangPower == 0.0
  {
    if isOn then gangPower else 0.0
  }

  /** The energy sensor integrates exactly what the power sensor reports: the
      energy accrued over an interval is the reported power times its length. */
  lemma AccruedIsPowerTimesHours(gangPower: real, m: Meter, now: Instant)
    requires m.lastChanged.Some?
    ensures Accrued(gangPower, m, now) == PowerReading(m.isOn, gangPower) * HoursBetween(m.lastChanged.value, now)
    ensures m.isOn ==> PowerReading(m.isOn, gangPower) == gangPower
    ensures !m.isOn ==> PowerReading(m.isOn, gangPower) == 0.0
  {
  }

  class PowerSensor {
    const gangPower: real
    var isOn: bool

    constructor(gangPower: real)
      ensures this.gangPower == gangPower && !isOn
    {
      this.gangPower := gangPower;
      isOn := false;
    }

    /** `_handle_switch_state_change`: the sensor is on exactly when the switch reports "on". */
    method HandleSwitchStateChange(newState: Option<string>)
      modifies this`isOn
      ensures newState.None? ==> isOn == old(isOn)
      ensures newState.Some? ==> isOn == (newState.value == StateOn)
    {
      if newState.Some? {
        isOn := newState.value == StateOn;
      }
    }

    function NativeValue(): (w: real)
      reads this
      ensures isOn ==> w == gangPower
      ensures !isOn ==> w == 0.0
    {
      PowerReading(isOn, gangPower)
    }
  }

  // ---------------------------------------------------------------------------
  // get_entity_friendly_name

  /** The last fallback: object id after the last dot, underscores as spaces, title-cased. */
  function FallbackName(entityId: string): string {
    Title(ReplaceChar(AfterLastDot(entityId), '_', ' '))
  }

  /** `get_entity_friendly_name`, with the host lookups passed in: `registryName`
      is the registry entry's name (None when there is no entry or no name), and
      `stateAttribute` is None when the entity has no state, Some(None) when its
      state has no `friendly_name` attribute. */
  function FriendlyName(entityId: string, registryName: Option<string>, stateAttribute: Option<Option<string>>): (r: string)
    ensures entityId == "" ==> r == "Unknown"
    ensures entityId != "" && registryName.Some? && registryName.value != "" ==> r == registryName.value
    ensures entityId != "" && (registryName.None? || registryName.value == "") && stateAttribute == None
      ==> r == FallbackName(entityId)
    ensures entityId != "" && (registryName.None? || registryName.value == "") && stateAttribute == Some(None)
      ==> r == FallbackName(entityId)
    ensures entityId != "" && (registryName.None? || registryName.value == "") && stateAttribute.Some? && stateAttribute.value.Some?
      ==> r == stateAttribute.value.value
  {
    if entityId == "" then "Unknown"
    else if registryName.Some? && registryName.value != "" then registryName.value
    else if stateAttribute.Some? then stateAttribute.value.GetOr(FallbackName(entityId))
    else FallbackName(entityId)
  }

  /** The fallback name has one character per character of the last dotted
      segment, contains neither dots nor underscores, turns underscores into
      spaces and capitalises exactly the letters that start a word. */
  lemma FallbackNameShape(entityId: string)
    ensures |FallbackName(entityId)| == |AfterLastDot(entityId)|
    ensures '.' !in FallbackName(entityId) && '_' !in FallbackName(entityId)
    ensures forall i :: 0 <= i < |AfterLastDot(entityId)| && AfterLastDot(entityId)[i] == '_' ==>
      FallbackName(entityId)[i] == ' '
    ensures AfterLastDot(entityId) != [] && IsCased(AfterLastDot(entityId)[0]) ==>
      FallbackName(entityId)[0] == ToUpper(AfterLastDot(entityId)[0])
    ensures forall i :: 0 < i < |AfterLastDot(entityId)| && IsCased(AfterLastDot(entityId)[i]) &&
                        !IsCased(AfterLastDot(entityId)[i - 1]) ==>
      FallbackName(entityId)[i] == ToUpper(AfterLastDot(entityId)[i])
    ensures forall i :: 0 < i < |AfterLastDot(entityId)| && IsCased(AfterLastDot(entityId)[i]) &&
                        IsCased(AfterLastDot(entityId)[i - 1]) ==>
      FallbackName(entityId)[i] == ToLower(AfterLastDot(entityId)[i])
  {
    var seg := AfterLastDot(entityId);
    var r := FallbackName(entityId);
    forall i | 0 <= i < |seg|
      ensures r[i] != '.' && r[i] != '_'
      ensures seg[i] == '_' ==> r[i] == ' '
    {
      assert seg[i] != '.' by { assert seg[i] in seg; }
      FallbackNameAt(seg, i);
    }
    if seg != [] {
      FallbackNameAt(seg, 0);
    }
    forall i | 0 < i < |seg| && IsCased(seg[i]) && !IsCased(seg[i - 1])
      ensures r[i] == ToUpper(seg[i])
    {
      FallbackNameAt(seg, i);
    }
    forall i | 0 < i < |seg| && IsCased(seg[i]) && IsCased(seg[i - 1])
      ensures r[i] == ToLower(seg[i])
    {
      FallbackNameAt(seg, i);
    }
    assert '.' !in r && '_' !in r;
  }

  lemma FallbackNameAt(seg: string, i: int)
    requires 0 <= i < |seg|
    ensures |Title(ReplaceChar(seg, '_', ' '))| == |seg|
    ensures var r := Title(ReplaceChar(seg, '_', ' '));
      && (seg[i] != '.' ==> r[i] != '.')
      && r[i] != '_'
      && (seg[i] == '_' ==> r[i] == ' ')
      && (IsCased(seg[i]) && (i == 0 || !IsCased(seg[i - 1])) ==> r[i] == ToUpper(seg[i]))
      && (i > 0 && IsCased(seg[i]) && IsCased(seg[i - 1]) ==> r[i] == ToLower(seg[i]))
  {
    var spaced := ReplaceChar(seg, '_', ' ');
    var r := Title(spaced);
    assert spaced[i] == (if seg[i] == '_' then ' ' else seg[i]);
    assert r[i] == (if i > 0 && IsCased(spaced[i - 1]) then ToLower(spaced[i]) else ToUpper(spaced[i]));
    if i > 0 {
      assert spaced[i - 1] == (if seg[i - 1] == '_' then ' ' else seg[i - 1]);
      assert IsCased(spaced[i - 1]) == IsCased(seg[i - 1]);
    }
  }
}
