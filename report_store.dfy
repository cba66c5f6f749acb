/** The manual data of the energy generation report: per config entry, the
    billing readings keyed by a period's end date and the manually entered
    daily solar generation keyed by date, with the service handlers that
    insert, overwrite and delete entries. Dates are day numbers; the
    `*_data_updated` event a handler fires is its `updated` result. */
module ReportStore {
  import opened Wrappers
  import opened Calendar

  /** One billing reading: the cumulative grid meter values at a period's end. */
  datatype BillingRecord = BillingRecord(gridConsumptionReading: real, gridInjectionReading: real, timestamp: Instant)

  /** The `period_total` and `period_days` marks of a day filled in by
      `add_solar_period_data`. */
  datatype PeriodMark = PeriodMark(total: real, days: int)

  datatype SolarRecord = SolarRecord(solarGenerationKwh: real, timestamp: Instant, period: Option<PeriodMark>)

  /** The `billing_data` and `manual_solar_data` dicts of one config entry. */
  datatype EntryData = EntryData(billing: map<Day, BillingRecord>, manualSolar: map<Day, SolarRecord>)

  // ---------------------------------------------------------------------------
  // The dict operations

  /** `billing_data[end_date] = {...}`. */
  function AddBilling(e: EntryData, day: Day, rec: BillingRecord): (r: EntryData)
    ensures day in r.billing && r.billing[day] == rec
    ensures forall d :: d != day ==> (d in r.billing <==> d in e.billing)
    ensures forall d :: d != day && d in e.billing ==> r.billing[d] == e.billing[d]
    ensures r.manualSolar == e.manualSolar
  {
    e.(billing := e.billing[day := rec])
  }

  /** `del billing_data[end_date]` when the key is present. */
  function DeleteBilling(e: EntryData, day: Day): (r: EntryData)
    ensures day !in r.billing
    ensures forall d :: d != day ==> (d in r.billing <==> d in e.billing)
    ensures forall d :: d in r.billing ==> r.billing[d] == e.billing[d]
    ensures day !in e.billing ==> r == e
    ensures r.manualSolar == e.manualSolar
  {
    if day in e.billing then e.(billing := e.billing - {day}) else e
  }

  /** `manual_solar_data[date] = {...}`. */
  function AddSolar(e: EntryData, day: Day, rec: SolarRecord): (r: EntryData)
    ensures day in r.manualSolar && r.manualSolar[day] == rec
    ensures forall d :: d != day ==> (d in r.manualSolar <==> d in e.manualSolar)
    ensures forall d :: d != day && d in e.manualSolar ==> r.manualSolar[d] == e.manualSolar[d]
    ensures r.billing == e.billing
  {
    e.(manualSolar := e.manualSolar[day := rec])
  }

  /** `del manual_solar_data[date]` when the key is present. */
  function DeleteSolar(e: EntryData, day: Day): (r: EntryData)
    ensures day !in r.manualSolar
    ensures forall d :: d != day ==> (d in r.manualSolar <==> d in e.manualSolar)
    ensures forall d :: d in r.manualSolar ==> r.manualSolar[d] == e.manualSolar[d]
    ensures day !in e.manualSolar ==> r == e
    ensures r.billing == e.billing
  {
    if day in e.manualSolar then e.(manualSolar := e.manualSolar - {day}) else e
  }

  /** The number of days of the inclusive range [start, end]. */
  function DaysIn(start: Day, end: Day): int {
    end - start + 1
  }

  /** The record `add_solar_period_data` writes on every day of the range:
      an even share of the total, marked with the total and the day count. */
  function PeriodRecord(start: Day, end: Day, total: real, now: Instant): (r: SolarRecord)
    requires start <= end
    ensures r.solarGenerationKwh * DaysIn(start, end) as real == total
    ensures r.timestamp == now && r.period == Some(PeriodMark(total, DaysIn(start, end)))
  {
    SolarRecord(total / DaysIn(start, end) as real, now, Some(PeriodMark(total, DaysIn(start, end))))
  }

  /** The days of the inclusive range [start, end]. */
  function DayRange(start: Day, end: Day): (s: set<Day>)
    ensures forall d :: d in s <==> start <= d <= end
    decreases end - start
  {
    if start > end then {} else {start} + DayRange(start + 1, end)
  }

  /** `m` with every day of [start, end] set to `rec`. */
  function Spread(m: map<Day, SolarRecord>, start: Day, end: Day, rec: SolarRecord): (r: map<Day, SolarRecord>)
    ensures forall d :: start <= d <= end ==> d in r && r[d] == rec
    ensures forall d :: !(start <= d <= end) ==> (d in r <==> d in m)
    ensures forall d :: !(start <= d <= end) && d in m ==> r[d] == m[d]
  {
    map d | d in m.Keys + DayRange(start, end) :: if start <= d <= end then rec else m[d]
  }

  /** Adding a key and deleting it again leaves the key absent and every other
      key as it was; deleting an absent key changes nothing. */
  lemma AddThenDeleteBilling(e: EntryData, day: Day, rec: BillingRecord)
    ensures DeleteBilling(AddBilling(e, day, rec), day).billing == e.billing - {day}
    ensures day !in e.billing ==> DeleteBilling(AddBilling(e, day, rec), day) == e
  {
    assert DeleteBilling(AddBilling(e, day, rec), day).billing == e.billing - {day};
  }

  lemma AddThenDeleteSolar(e: EntryData, day: Day, rec: SolarRecord)
    ensures DeleteSolar(AddSolar(e, day, rec), day).manualSolar == e.manualSolar - {day}
    ensures day !in e.manualSolar ==> DeleteSolar(AddSolar(e, day, rec), day) == e
  {
    assert DeleteSolar(AddSolar(e, day, rec), day).manualSolar == e.manualSolar - {day};
  }

  // ---------------------------------------------------------------------------
  // hass.data[DOMAIN]: the entries and their handlers

  class Integration {
    var entries: map<string, EntryData>

    constructor(entries: map<string, EntryData>)
      ensures this.entries == entries
    {
      this.entries := entries;
    }

    /** `add_billing_data`. */
    method AddBillingData(entryId: string, endDate: Day, consumption: real, injection: real, now: Instant)
      returns (updated: bool)
      modifies this
      ensures updated == (entryId in old(entries))
      ensures entryId !in old(entries) ==> entries == old(entries)
      ensures entryId in old(entries) ==>
        entries == old(entries)[entryId := AddBilling(old(entries)[entryId], endDate, BillingRecord(consumption, injection, now))]
    {
      if entryId !in entries {
        return false;
      }
      var e := entries[entryId];
      entries := entries[entryId := e.(billing := e.billing[endDate := BillingRecord(consumption, injection, now)])];
      updated := true;
    }

    /** `update_billing_data`: the same as adding. */
    method UpdateBillingData(entryId: string, endDate: Day, consumption: real, injection: real, now: Instant)
      returns (updated: bool)
      modifies this
      ensures updated == (entryId in old(entries))
      ensures entryId !in old(entries) ==> entries == old(entries)
      ensures entryId in old(entries) ==>
        entries == old(entries)[entryId := AddBilling(old(entries)[entryId], endDate, BillingRecord(consumption, injection, now))]
    {
      updated := AddBillingData(entryId, endDate, consumption, injection, now);
    }

    /** `delete_billing_data`: the event fires only when a key was removed. */
    method DeleteBillingData(entryId: string, endDate: Day) returns (updated: bool)
      modifies this
      ensures updated == (entryId in old(entries) && endDate in old(entries)[entryId].billing)
      ensures entryId !in old(entries) ==> entries == old(entries)
      ensures entryId in old(entries) ==>
        entries == old(entries)[entryId := DeleteBilling(old(entries)[entryId], endDate)]
    {
      if entryId !in entries {
        return false;
      }
      var e := entries[entryId];
      updated := endDate in e.billing;
      if updated {
        entries := entries[entryId := e.(billing := e.billing - {endDate})];
      } else {
        assert entries == entries[entryId := e];
      }
    }

    /** `add_solar_data`. */
    method AddSolarData(entryId: string, date: Day, kwh: real, now: Instant) returns (updated: bool)
      modifies this
      ensures updated == (entryId in old(entries))
      ensures entryId !in old(entries) ==> entries == old(entries)
      ensures entryId in old(entries) ==>
        entries == old(entries)[entryId := AddSolar(old(entries)[entryId], date, SolarRecord(kwh, now, None))]
    {
      if entryId !in entries {
        return false;
      }
      var e := entries[entryId];
      entries := entries[entryId := e.(manualSolar := e.manualSolar[date := SolarRecord(kwh, now, None)])];
      updated := true;
    }

    /** `update_solar_data`: the same as adding. */
    method UpdateSolarData(entryId: string, date: Day, kwh: real, now: Instant) returns (updated: bool)
      modifies this
      ensures updated == (entryId in old(entries))
      ensures entryId !in old(entries) ==> entries == old(entries)
      ensures entryId in old(entries) ==>
        entries == old(entries)[entryId := AddSolar(old(entries)[entryId], date, SolarRecord(kwh, now, None))]
    {
      updated := AddSolarData(entryId, date, kwh, now);
    }

    /** `delete_solar_data`: the event fires only when a key was removed. */
    method DeleteSolarData(entryId: string, date: Day) returns (updated: bool)
      modifies this
      ensures updated == (entryId in old(entries) && date in old(entries)[entryId].manualSolar)
      ensures entryId !in old(entries) ==> entries == old(entries)
      ensures entryId in old(entries) ==>
        entries == old(entries)[entryId := DeleteSolar(old(entries)[entryId], date)]
    {
      if entryId !in entries {
        return false;
      }
      var e := entries[entryId];
      updated := date in e.manualSolar;
      if updated {
        entries := entries[entryId := e.(manualSolar := e.manualSolar - {date})];
      } else {
        assert entries == entries[entryId := e];
      }
    }

    /** `add_solar_period_data`: every day of [start, end] gets an even share
      of `total`; a reversed range or an unknown entry changes nothing. */
    method AddSolarPeriodData(entryId: string, start: Day, end: Day, total: real, now: Instant)
      returns (updated: bool)
      modifies this
      ensures updated == (entryId in old(entries) && start <= end)
      ensures !updated ==> entries == old(entries)
      ensures updated ==>
        var e := old(entries)[entryId];
        entries == old(entries)[entryId := e.(manualSolar := Spread(e.manualSolar, start, end, PeriodRecord(start, end, total, now)))]
    {
      if entryId !in entries || start > end {
        return false;
      }
      var rec := PeriodRecord(start, end, total, now);
      var e := entries[entryId];
      var solar := e.manualSolar;
      var current := start;
      while current <= end
        invariant start <= current <= end + 1
        invariant solar == Spread(e.manualSolar, start, current - 1, rec)
      {
        solar := solar[current := rec];
        current := current + 1;
      }
      entries := entries[entryId := e.(manualSolar := solar)];
      updated := true;
    }
  }
}
