/** The configuration flow of the energy generation report: offer the solar
    energy sensors of the entity registry (every energy sensor when there is
    no solar one), validate the chosen solar sensor, create the entry, and
    merge a reconfiguration into the stored data. The registry is an input:
    its entries in iteration order. */
module ReportConfigFlow {
  import opened Wrappers
  import opened Text
  import ReportSensor

  const ConfName: string := "name"
  const ConfSolarSensor: string := "solar_sensor"
  const ConfInitialGridConsumption: string := "initial_grid_consumption"
  const ConfInitialGridInjection: string := "initial_grid_injection"
  const ConfMinimumBillingKwh: string := "minimum_billing_kwh"
  const ConfInitialBalance: string := "initial_balance"
  const ConfBillingPeriodDays: string := "billing_period_days"

  datatype RegistryEntity = RegistryEntity(entityId: string, domain: string, deviceClass: Option<string>)

  predicate IsEnergySensor(e: RegistryEntity) {
    e.domain == "sensor" && e.deviceClass == Some("energy")
  }

  /** An energy sensor whose lower-cased id mentions "solar". */
  predicate IsSolarSensor(e: RegistryEntity) {
    IsEnergySensor(e) && Contains(Lower(e.entityId), "solar")
  }

  /** The ids the first loop collects. */
  function SolarIds(registry: seq<RegistryEntity>): seq<string> {
    if registry == [] then []
    else
      var e := registry[|registry| - 1];
      SolarIds(registry[..|registry| - 1]) + (if IsSolarSensor(e) then [e.entityId] else [])
  }

  /** The ids the fallback loop collects. */
  function EnergyIds(registry: seq<RegistryEntity>): seq<string> {
    if registry == [] then []
    else
      var e := registry[|registry| - 1];
      EnergyIds(registry[..|registry| - 1]) + (if IsEnergySensor(e) then [e.entityId] else [])
  }

  /** The unsorted list `get_energy_sensors` returns: the solar sensors, or
      every energy sensor when there is no solar one. */
  function Offered(registry: seq<RegistryEntity>): seq<string> {
    if SolarIds(registry) != [] then SolarIds(registry) else EnergyIds(registry)
  }

  lemma {:induction false} SolarIdsMembers(registry: seq<RegistryEntity>)
    ensures forall id :: id in SolarIds(registry) <==> exists e :: e in registry && IsSolarSensor(e) && e.entityId == id
  {
    if registry != [] {
      var init := registry[..|registry| - 1];
      SolarIdsMembers(init);
      assert registry == init + [registry[|registry| - 1]];
    }
  }

  lemma {:induction false} EnergyIdsMembers(registry: seq<RegistryEntity>)
    ensures forall id :: id in EnergyIds(registry) <==> exists e :: e in registry && IsEnergySensor(e) && e.entityId == id
  {
    if registry != [] {
      var init := registry[..|registry| - 1];
      EnergyIdsMembers(init);
      assert registry == init + [registry[|registry| - 1]];
    }
  }

  /** The offered sensors are exactly the solar energy sensors when there is
      one, else exactly the energy sensors; either way every offered sensor is
      an energy sensor, and nothing is offered only when there is none. */
  lemma OfferedSpec(registry: seq<RegistryEntity>)
    ensures (exists e :: e in registry && IsSolarSensor(e)) ==>
      forall id :: id in Offered(registry) <==> exists e :: e in registry && IsSolarSensor(e) && e.entityId == id
    ensures (forall e :: e in registry ==> !IsSolarSensor(e)) ==>
      forall id :: id in Offered(registry) <==> exists e :: e in registry && IsEnergySensor(e) && e.entityId == id
    ensures forall id :: id in Offered(registry) ==> exists e :: e in registry && IsEnergySensor(e) && e.entityId == id
    ensures Offered(registry) == [] <==> forall e :: e in registry ==> !IsEnergySensor(e)
  {
    SolarIdsMembers(registry);
    EnergyIdsMembers(registry);
    if exists e :: e in registry && IsSolarSensor(e) {
      var e :| e in registry && IsSolarSensor(e);
      assert e.entityId in SolarIds(registry);
    } else {
      if SolarIds(registry) != [] {
        assert SolarIds(registry)[0] in SolarIds(registry);
      }
      if exists e :: e in registry && IsEnergySensor(e) {
        var e :| e in registry && IsEnergySensor(e);
        assert e.entityId in EnergyIds(registry);
      } else if EnergyIds(registry) != [] {
        assert EnergyIds(registry)[0] in EnergyIds(registry);
      }
    }
  }

  /** `get_energy_sensors`. */
  method GetEnergySensors(registry: seq<RegistryEntity>) returns (r: seq<string>)
    ensures Sorted(r)
    ensures multiset(r) == multiset(Offered(registry))
  {
    var sensors: seq<string> := [];
    var i := 0;
    while i < |registry|
      invariant 0 <= i <= |registry|
      invariant sensors == SolarIds(registry[..i])
    {
      assert registry[..i + 1][..i] == registry[..i];
      if IsSolarSensor(registry[i]) {
        sensors := sensors + [registry[i].entityId];
      }
      i := i + 1;
    }
    assert registry[..i] == registry;
    if sensors == [] {
      var j := 0;
      while j < |registry|
        invariant 0 <= j <= |registry|
        invariant sensors == EnergyIds(registry[..j])
      {
        assert registry[..j + 1][..j] == registry[..j];
        if IsEnergySensor(registry[j]) {
          sensors := sensors + [registry[j].entityId];
        }
        j := j + 1;
      }
      assert registry[..j] == registry;
    }
    r := Sort(sensors);
  }

  // ---------------------------------------------------------------------------
  // Entry data

  /** A value of the entry's data dict after the form's coercions. */
  datatype ConfigValue = Text(text: string) | Number(number: real) | Whole(whole: int)

  type ConfigData = map<string, ConfigValue>

  /** What the user form guarantees: a name and a solar sensor, and a billing
      period of 1 to 365 days when one is given. */
  predicate WellFormedInput(input: ConfigData) {
    && ConfName in input && input[ConfName].Text?
    && ConfSolarSensor in input && input[ConfSolarSensor].Text?
    && (ConfBillingPeriodDays in input ==>
          input[ConfBillingPeriodDays].Whole? && 1 <= input[ConfBillingPeriodDays].whole <= 365)
  }

  function RealSetting(data: ConfigData, key: string): Option<real> {
    if key in data && data[key].Number? then Some(data[key].number) else None
  }

  /** The settings the report coordinator reads from an entry's data. */
  function SettingsOf(data: ConfigData): ReportSensor.EntryConfig {
    ReportSensor.EntryConfig(
      RealSetting(data, ConfInitialBalance),
      RealSetting(data, ConfInitialGridConsumption),
      RealSetting(data, ConfInitialGridInjection),
      RealSetting(data, ConfMinimumBillingKwh),
      if ConfBillingPeriodDays in data && data[ConfBillingPeriodDays].Whole?
      then Some(data[ConfBillingPeriodDays].whole) else None)
  }

  /** An entry created from the form has a billing period of 1 to 365 days,
      so its first period spans at least one day. */
  lemma FormPeriodDaysInRange(input: ConfigData)
    requires WellFormedInput(input)
    ensures 1 <= ReportSensor.BillingPeriodDays(SettingsOf(input)) <= 365
  {
  }

  /** `{**data, **user_input}`: every submitted key takes the submitted
      value, every other stored key keeps its value. */
  function Merged(data: ConfigData, input: ConfigData): (r: ConfigData)
    ensures forall k :: k in r <==> k in data || k in input
    ensures forall k :: k in input ==> r[k] == input[k]
    ensures forall k :: k in data && k !in input ==> r[k] == data[k]
  {
    data + input
  }

  /** Submitting the stored data again changes nothing, and submitting an
      empty form changes nothing. */
  lemma MergedIdentities(data: ConfigData)
    ensures Merged(data, data) == data
    ensures Merged(data, map[]) == data
  {
    assert Merged(data, map[]) == data;
  }

  // ---------------------------------------------------------------------------
  // The flow

  const AbortNoEnergySensors: string := "no_energy_sensors"
  const AbortAlreadyConfigured: string := "already_configured"
  const ErrorInvalidSensor: string := "invalid_sensor"

  datatype FlowResult =
    | ShowForm(stepId: string, errors: map<string, string>)
    | Abort(reason: string)
    | CreateEntry(title: string, data: ConfigData)
    | UpdateReloadAbort(data: ConfigData)

  class ConfigFlow {
    var uniqueId: Option<string>

    constructor()
      ensures uniqueId == None
    {
      uniqueId := None;
    }

    /** `async_step_user`. `configured` holds the unique ids of the existing
      entries. A sensor that is not offered is "invalid_sensor"; an offered
      one becomes the flow's unique id and creates the entry unless an entry
      already has it. Without input, or after an error, the form is shown,
      or the flow aborts when there is no energy sensor to offer. */
    method StepUser(input: Option<ConfigData>, registry: seq<RegistryEntity>, configured: set<string>)
      returns (result: FlowResult)
      requires input.Some? ==> WellFormedInput(input.value)
      modifies this`uniqueId
      ensures input.Some? && input.value[ConfSolarSensor].text in Offered(registry) ==>
        var sensor := input.value[ConfSolarSensor].text;
        && uniqueId == Some(sensor)
        && result == (if sensor in configured then Abort(AbortAlreadyConfigured)
                      else CreateEntry(input.value[ConfName].text, input.value))
      ensures !(input.Some? && input.value[ConfSolarSensor].text in Offered(registry)) ==>
        && uniqueId == old(uniqueId)
        && result == (if Offered(registry) == [] then Abort(AbortNoEnergySensors)
                      else ShowForm("user", if input.Some? then map[ConfSolarSensor := ErrorInvalidSensor] else map[]))
    {
      var errors: map<string, string> := map[];
      if input.Some? {
        var sensors := GetEnergySensors(registry);
        var sensor := input.value[ConfSolarSensor].text;
        assert (sensor in sensors) == (sensor in Offered(registry)) by {
          assert sensor in sensors <==> sensor in multiset(sensors);
          assert sensor in Offered(registry) <==> sensor in multiset(Offered(registry));
        }
        if sensor !in sensors {
          errors := errors[ConfSolarSensor := ErrorInvalidSensor];
        } else {
          uniqueId := Some(sensor);
          if sensor in configured {
            return Abort(AbortAlreadyConfigured);
          }
          return CreateEntry(input.value[ConfName].text, input.value);
        }
      }
      var energySensors := GetEnergySensors(registry);
      if energySensors == [] {
        assert |Offered(registry)| == |multiset(energySensors)| == 0;
        return Abort(AbortNoEnergySensors);
      }
      assert Offered(registry) != [] by {
        assert energySensors[0] in multiset(energySensors);
      }
      return ShowForm("user", errors);
    }

    /** `async_step_reconfigure`: the submitted values are merged over the
      entry's stored data. */
    method StepReconfigure(data: ConfigData, input: Option<ConfigData>) returns (result: FlowResult)
      ensures input.None? ==> result == ShowForm("reconfigure", map[])
      ensures input.Some? ==> result.UpdateReloadAbort?
      ensures input.Some? ==> forall k :: k in result.data <==> k in data || k in input.value
      ensures input.Some? ==> forall k :: k in input.value ==> result.data[k] == input.value[k]
      ensures input.Some? ==> forall k :: k in data && k !in input.value ==> result.data[k] == data[k]
    {
      if input.Some? {
        return UpdateReloadAbort(Merged(data, input.value));
      }
      return ShowForm("reconfigure", map[]);
    }
  }
}
