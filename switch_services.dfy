/** The admin services of the switch energy estimator: reset the running
    total, overwrite one day's historical value, and export the historical
    map, optionally filtered to a date range. An entity is looked up by id in
    `sensors`; an id with no sensor behind it changes nothing. */
module SwitchServices {
  import opened Wrappers
  import opened Calendar
  import opened SwitchSensor

  // ---------------------------------------------------------------------------
  // The export filter

  /** Whether the filter keeps a key: a key that parses as a calendar day is
      kept when it lies within the bounds given (a missing bound is open);
      weekly and monthly keys do not parse as a day and are always kept. */
  predicate InRange(k: DateKey, start: Option<Day>, end: Option<Day>) {
    match k
    case DailyKey(d) => !(start.Some? && d < start.value) && !(end.Some? && d > end.value)
    case _ => true
  }

  /** The keys the filter keeps, in the order they were met. */
  function FilterKeys(order: seq<DateKey>, start: Option<Day>, end: Option<Day>): seq<DateKey> {
    if order == [] then []
    else
      var k := order[|order| - 1];
      FilterKeys(order[..|order| - 1], start, end) + (if InRange(k, start, end) then [k] else [])
  }

  /** The entries of `values` the filter keeps. */
  function FilterValues(values: map<DateKey, real>, start: Option<Day>, end: Option<Day>): map<DateKey, real> {
    map k | k in values && InRange(k, start, end) :: values[k]
  }

  /** The `filtered_data` dict built from `data`. */
  function Filtered(data: History, start: Option<Day>, end: Option<Day>): History {
    History(FilterKeys(data.order, start, end), FilterValues(data.values, start, end))
  }

  predicate Distinct(ks: seq<DateKey>) {
    forall i, j :: 0 <= i < j < |ks| ==> ks[i] != ks[j]
  }

  lemma {:induction false} FilterKeysMembers(order: seq<DateKey>, start: Option<Day>, end: Option<Day>)
    ensures forall k :: k in FilterKeys(order, start, end) <==> k in order && InRange(k, start, end)
  {
    if order != [] {
      var init := order[..|order| - 1];
      FilterKeysMembers(init, start, end);
      assert order == init + [order[|order| - 1]];
    }
  }

  lemma {:induction false} FilterKeysDistinct(order: seq<DateKey>, start: Option<Day>, end: Option<Day>)
    requires Distinct(order)
    ensures Distinct(FilterKeys(order, start, end))
  {
    if order != [] {
      var init := order[..|order| - 1];
      var k := order[|order| - 1];
      assert Distinct(init);
      FilterKeysDistinct(init, start, end);
      FilterKeysMembers(init, start, end);
    }
  }

  /** When the filter keeps every key it returns the key list unchanged. */
  lemma {:induction false} FilterKeysAll(order: seq<DateKey>, start: Option<Day>, end: Option<Day>)
    requires forall i :: 0 <= i < |order| ==> InRange(order[i], start, end)
    ensures FilterKeys(order, start, end) == order
  {
    if order != [] {
      var n := |order| - 1;
      var init := order[..n];
      assert forall i :: 0 <= i < n ==> init[i] == order[i];
      FilterKeysAll(init, start, end);
      assert order == init + [order[n]];
    }
  }

  /** The filtered map is a well-formed dict: exactly the kept keys, with
      their values, in their original relative order. */
  lemma FilteredIsHistory(data: History, start: Option<Day>, end: Option<Day>)
    requires ValidHistory(data)
    ensures ValidHistory(Filtered(data, start, end))
    ensures forall k :: k in Filtered(data, start, end).values <==> k in data.values && InRange(k, start, end)
    ensures forall k :: k in Filtered(data, start, end).values ==> Filtered(data, start, end).values[k] == data.values[k]
  {
    FilterKeysMembers(data.order, start, end);
    FilterKeysDistinct(data.order, start, end);
  }

  /** A daily key survives the filter exactly when its day is within the
      bounds; weekly and monthly keys always survive. */
  lemma FilterKeepsDay(data: History, d: Day, start: Option<Day>, end: Option<Day>)
    requires DailyKey(d) in data.values
    ensures DailyKey(d) in Filtered(data, start, end).values
      <==> (start.None? || start.value <= d) && (end.None? || d <= end.value)
  {
  }

  lemma FilterKeepsPeriodKeys(data: History, k: DateKey, start: Option<Day>, end: Option<Day>)
    requires k in data.values && !k.DailyKey?
    ensures k in Filtered(data, start, end).values && Filtered(data, start, end).values[k] == data.values[k]
  {
  }

  /** With no bounds the filter is the identity, order included. */
  lemma {:induction false} FilterUnbounded(data: History)
    requires ValidHistory(data)
    ensures Filtered(data, None, None) == data
  {
    FilterKeysAll(data.order, None, None);
    assert Filtered(data, None, None).values == data.values;
  }

  /** The dict `data` as it was after its first `i` insertions. */
  function Prefix(data: History, i: nat): (r: History)
    requires ValidHistory(data) && i <= |data.order|
    ensures ValidHistory(r)
  {
    var ks := data.order[..i];
    assert forall k :: k in ks ==> k in data.values;
    History(ks, map k | k in ks :: data.values[k])
  }

  lemma FilterKeysStep(order: seq<DateKey>, i: nat, start: Option<Day>, end: Option<Day>)
    requires i < |order|
    ensures FilterKeys(order[..i + 1], start, end)
      == FilterKeys(order[..i], start, end) + (if InRange(order[i], start, end) then [order[i]] else [])
  {
    assert order[..i + 1][..i] == order[..i];
  }

  lemma PrefixNext(data: History, i: nat)
    requires ValidHistory(data) && i < |data.order|
    ensures data.order[i] !in Prefix(data, i).values
    ensures Prefix(data, i + 1).values == Prefix(data, i).values[data.order[i] := data.values[data.order[i]]]
  {
    var k := data.order[i];
    assert data.order[..i + 1] == data.order[..i] + [k];
  }

  /** Filtering a dict after one more assignment. */
  lemma FilterValuesUpdate(values: map<DateKey, real>, k: DateKey, v: real, start: Option<Day>, end: Option<Day>)
    ensures FilterValues(values[k := v], start, end)
      == if InRange(k, start, end) then FilterValues(values, start, end)[k := v]
         else FilterValues(values, start, end)
  {
    var f, f' := FilterValues(values, start, end), FilterValues(values[k := v], start, end);
    if InRange(k, start, end) {
      assert f'.Keys == f.Keys + {k};
      assert f' == f[k := v];
    } else {
      assert f'.Keys == f.Keys;
      assert f' == f;
    }
  }

  /** One iteration of the export loop: the filter of a one-longer prefix is
      the filter of the prefix with the next key appended if it is kept. */
  lemma FilterStep(data: History, i: nat, start: Option<Day>, end: Option<Day>)
    requires ValidHistory(data) && i < |data.order|
    ensures ValidHistory(Filtered(Prefix(data, i), start, end))
    ensures data.order[i] !in Filtered(Prefix(data, i), start, end).values
    ensures Filtered(Prefix(data, i + 1), start, end)
      == if InRange(data.order[i], start, end)
         then Put(Filtered(Prefix(data, i), start, end), data.order[i], data.values[data.order[i]])
         else Filtered(Prefix(data, i), start, end)
  {
    FilteredIsHistory(Prefix(data, i), start, end);
    PrefixNext(data, i);
    FilterKeysStep(data.order, i, start, end);
    FilterValuesUpdate(Prefix(data, i).values, data.order[i], data.values[data.order[i]], start, end);
  }

  /** The loop of `export_data_service` that builds `filtered_data`. */
  method FilterByDate(data: History, start: Option<Day>, end: Option<Day>) returns (r: History)
    requires ValidHistory(data)
    ensures ValidHistory(r)
    ensures r == Filtered(data, start, end)
  {
    r := EmptyHistory;
    var i := 0;
    while i < |data.order|
      invariant 0 <= i <= |data.order|
      invariant r == Filtered(Prefix(data, i), start, end)
    {
      var k := data.order[i];
      FilterStep(data, i, start, end);
      if InRange(k, start, end) {
        r := Put(r, k, data.values[k]);
      }
      i := i + 1;
    }
    assert Prefix(data, i) == data by {
      assert data.order[..i] == data.order;
    }
    FilteredIsHistory(data, start, end);
  }

  // ---------------------------------------------------------------------------
  // The services

  /** `export_data_service`: the data it publishes, None when the entity is
      not found. The map is filtered only when a bound is given. */
  method ExportData(sensors: map<string, EnergySensor>, entityId: string, start: Option<Day>, end: Option<Day>)
    returns (r: Option<History>)
    requires entityId in sensors ==> sensors[entityId].Valid()
    ensures entityId !in sensors ==> r == None
    ensures entityId in sensors ==> r.Some? && ValidHistory(r.value)
    ensures entityId in sensors ==> r.value == Filtered(sensors[entityId].history, start, end)
  {
    if entityId !in sensors {
      return None;
    }
    var data := sensors[entityId].history;
    if start.Some? || end.Some? {
      data := FilterByDate(data, start, end);
    } else {
      FilterUnbounded(data);
    }
    r := Some(data);
  }

  /** `reset_energy_service`: the running total goes to 0 and nothing else
      changes; the `period` argument is only logged. */
  method ResetEnergy(sensors: map<string, EnergySensor>, entityId: string)
    requires entityId in sensors ==> sensors[entityId].Valid()
    modifies if entityId in sensors then {sensors[entityId]} else {}
    ensures entityId in sensors ==> sensors[entityId].Valid()
    ensures entityId in sensors ==>
      sensors[entityId].Snapshot() == old(sensors[entityId].Snapshot()).(energy := 0.0)
      && sensors[entityId].lastState == old(sensors[entityId].lastState)
  {
    if entityId in sensors {
      var s := sensors[entityId];
      s.energy := 0.0;
    }
  }

  /** `set_energy_service`: the daily key of `date` (today when omitted) is
      set to `energy`, overwriting an earlier value; nothing else changes. */
  method SetEnergy(sensors: map<string, EnergySensor>, entityId: string, energy: real, date: Option<Day>, today: Day)
    requires entityId in sensors ==> sensors[entityId].Valid()
    modifies if entityId in sensors then {sensors[entityId]} else {}
    ensures entityId in sensors ==> sensors[entityId].Valid()
    ensures entityId in sensors ==>
      var s := sensors[entityId];
      && s.history == Put(old(s.history), DailyKey(date.GetOr(today)), energy)
      && s.energy == old(s.energy) && s.isOn == old(s.isOn)
      && s.lastChanged == old(s.lastChanged) && s.lastState == old(s.lastState)
  {
    if entityId in sensors {
      var s := sensors[entityId];
      s.history := Put(s.history, DailyKey(date.GetOr(today)), energy);
    }
  }

  /** After `set_energy` the day's value is exactly the one given, every other
      bucket keeps its value, and an export whose range covers the day shows it. */
  lemma SetEnergyThenExport(h: History, d: Day, energy: real, start: Option<Day>, end: Option<Day>)
    requires ValidHistory(h)
    requires (start.None? || start.value <= d) && (end.None? || d <= end.value)
    ensures var h' := Put(h, DailyKey(d), energy);
      && DailyKey(d) in Filtered(h', start, end).values
      && Filtered(h', start, end).values[DailyKey(d)] == energy
      && (forall k :: k != DailyKey(d) && k in h.values ==> k in h'.values && h'.values[k] == h.values[k])
  {
  }
}
