# Energy report and switch energy estimator, modelled in Dafny

This project models the computational core of two Home Assistant custom
integrations from the `zigbee-devices` repository.

**Energy generation report.**
- Billing readings (cumulative grid consumption and injection meter values,
  keyed by the end date of a billing period) and manually entered daily solar
  generation are kept per config entry. Service handlers insert, overwrite and
  delete them (`ReportStore`).
- A coordinator sorts the readings by date and turns them into a chain of
  contiguous billing periods (`ReportSensor`). Each period has grid figures that
  are differences of consecutive readings, a solar figure summed day by day (a
  manual value overrides the sensor's daily total), derived consumption
  figures, and a running balance. Consumption above a minimum billing amount is
  charged against injected energy.
- The coordinator also aggregates the solar sensor's recorded states into daily
  maxima. Each report sensor shows one figure of the latest period, and the
  coordinator keeps a list of update listeners.
- The config flow offers the solar energy sensors, or every energy sensor when
  there is no solar one. It rejects an unoffered sensor and merges a
  reconfiguration over the stored data (`ReportConfigFlow`).

**Switch energy estimator.**
- Each gang of a multi-gang switch gets an energy sensor (`SwitchSensor`). On
  every switch transition it integrates power × time spent on and books the
  energy in a daily, weekly or monthly bucket. It resets its running total when
  a new bucket starts.
- Two behaviours of the original are kept exactly as written:
  - a reset archives the running total under the key of the *new* period;
  - the current bucket is created before the reset check, so a reset can only
    happen in an update that accrued nothing.
- Admin services reset the total, overwrite one day's value, and export the
  history filtered by a date range (`SwitchServices`).
- The config flow lists switch and light entities, validates the gang-to-entity
  choices and collects a power rating per gang (`SwitchConfigFlow`).

**Representation.**
- Dates are day numbers and instants are microseconds (`Calendar`). Energy is
  `real`.
- Python dicts whose insertion order is observable (the switch history) are a
  key sequence plus a map. The report's period dict is a sequence in insertion
  order, which is the order of its end dates.
- Host lookups (entity registry, current states, recorder rows, the clock) are
  parameters.
- Objects whose fields the source updates (the coordinator, the energy and
  power sensors, the flows, the integration's per-entry data) are classes, and
  their handlers are methods proved against specification functions. The loops
  of the source (period calculation, the solar sum, daily aggregation, listener
  removal, entity collection, gang validation, the export filter, the period
  spread) are loops with invariants.

## Model

| member | source | states |
|---|---|---|
| ReportSensor.MakePeriod | custom_components/energy_generation_report/sensor.py:207-242 | total consumption = grid consumption + solar consumption; solar consumption = solar − injection; the balance change is injection minus consumption above the minimum (never more than the injection); the cumulative balance grows by the balance change |
| ReportSensor.SolarSum | custom_components/energy_generation_report/sensor.py:250-270 | a range of days with non-negative daily values has a non-negative sum, and a one-day range sums to that day's value |
| ReportSensor.SolarSumSplit | custom_components/energy_generation_report/sensor.py:250-270 | the solar sum over adjacent day ranges adds up |
| ReportSensor.SolarSumConstant | custom_components/energy_generation_report/sensor.py:250-270 | a range whose days all carry the same manual value v sums to days × v |
| ReportStore.PeriodRecord | custom_components/energy_generation_report/__init__.py:227-243 | the daily share times the number of days is the period total; the record carries the timestamp and the total and day count |
| ReportSensor.SpreadAddsUpToTotal | custom_components/energy_generation_report/__init__.py:227-244 | after spreading a period total over [start, end], the solar sum over that range is the total again, whatever the sensor reported |
| ReportSensor.PeriodsUpTo | custom_components/energy_generation_report/sensor.py:194-246 | the loop produces one period per reading visited |
| ReportSensor.PeriodsPrefix | custom_components/energy_generation_report/sensor.py:194-246 | the first k periods do not depend on later readings |
| ReportSensor.PeriodAt | custom_components/energy_generation_report/sensor.py:194-246 | period i is the period built from its start and end, its solar sum, its grid deltas, the minimum billing and the previous cumulative balance, so its total consumption, solar consumption, balance change and cumulative balance follow the rules stated for `MakePeriod`; it ends at reading i's date; it starts the day after the previous end, or `billing_period_days − 1` days before its end for the first; its grid figures are the reading minus the previous reading (the configured initial value for the first); its solar figure is the solar sum over its days; its balance carries the previous one forward |
| ReportSensor.PeriodEnds | custom_components/energy_generation_report/sensor.py:194-242 | there is one period per billing date, and period i ends on date i |
| ReportSensor.PeriodsContiguous | custom_components/energy_generation_report/sensor.py:198-204 | the first period spans `billing_period_days` days, and every later period starts the day after the previous one ends |
| ReportSensor.EntryReadings | custom_components/energy_generation_report/sensor.py:170-179 | every date the loop visits has a billing reading |
| ReportSensor.EntryReadingsKeys | custom_components/energy_generation_report/sensor.py:179 | the loop visits every billing date exactly once, in increasing order |
| ReportSensor.GridTelescopes | custom_components/energy_generation_report/sensor.py:186-245 | the grid consumption (injection) of the first n periods adds up to reading n minus the initial reading |
| ReportSensor.CumulativeIsRunningSum | custom_components/energy_generation_report/sensor.py:182-241 | each period's cumulative balance is the initial balance plus the balance changes of it and all earlier periods |
| ReportSensor.SolarCoversSpan | custom_components/energy_generation_report/sensor.py:198-215 | with a period length of at least one day, the solar figures of the first n periods add up to the solar sum from the first start to the n-th end date |
| ReportSensor.SortedDaysSpec | custom_components/energy_generation_report/sensor.py:179 | the sorted billing dates are increasing and are exactly the dates of the map |
| ReportSensor.SortDays | custom_components/energy_generation_report/sensor.py:179 | the sort returns the increasing sequence of the billing dates |
| ReportSensor.DayMaxIsMaximum | custom_components/energy_generation_report/sensor.py:142-160 | a date's maximum is absent exactly when no valid reading was recorded on that date; otherwise it bounds every valid reading of the date and is one of them |
| ReportSensor.FoldInvariant | custom_components/energy_generation_report/sensor.py:138-160 | for time-ordered states, the loop variables hold the running maximum of the open date, and `daily_totals` holds the maxima of exactly the earlier dates |
| ReportSensor.Fold | custom_components/energy_generation_report/sensor.py:142-160 | after any prefix of the rows, the open date and the running value are set together, the running value is a valid reading of the open date, and each closed total is a valid reading of its date |
| ReportSensor.DailyTotals | custom_components/energy_generation_report/sensor.py:142-164 | whatever the order of the rows, every daily total is a valid reading recorded on its date |
| ReportSensor.DailyTotalsAreDayMaxima | custom_components/energy_generation_report/sensor.py:138-166 | states that are unknown, unavailable, missing or not numeric are skipped; each date with a valid reading gets its largest reading; the last date is included |
| ReportSensor.AggregateDaily | custom_components/energy_generation_report/sensor.py:138-166 | the aggregation loop computes the daily totals |
| ReportSensor.Latest | custom_components/energy_generation_report/sensor.py:278 | the selected period is one of the periods, and no period ends later |
| ReportSensor.FieldOf | custom_components/energy_generation_report/sensor.py:280-293 | a figure is returned exactly for the six known sensor types |
| ReportSensor.LatestIsLast | custom_components/energy_generation_report/sensor.py:278 | for increasing end dates, the latest period is the last one |
| ReportSensor.RemoveFirstSpec | custom_components/energy_generation_report/sensor.py:67-71 | removing a listener drops exactly one registration of it, and removing an unregistered one changes nothing |
| ReportSensor.Coordinator.constructor | custom_components/energy_generation_report/sensor.py:51-57 | a new coordinator has no listeners, no solar data and no periods |
| ReportSensor.Coordinator.AddListener | custom_components/energy_generation_report/sensor.py:62-65 | the listener is appended |
| ReportSensor.Coordinator.RemoveListener | custom_components/energy_generation_report/sensor.py:67-71 | the first registration of the listener, if any, is removed |
| ReportSensor.Coordinator.SolarForPeriod | custom_components/energy_generation_report/sensor.py:250-270 | the loop returns the sum over [start, end] of the manual value, else the sensor value, else 0 |
| ReportSensor.Coordinator.CalculatePeriods | custom_components/energy_generation_report/sensor.py:168-248 | the stored periods are the periods of the entry's billing dates in increasing order |
| ReportSensor.Coordinator.HandleDataUpdate | custom_components/energy_generation_report/sensor.py:79-83 | an event of this entry recomputes the periods; events of other entries change nothing |
| ReportSensor.Coordinator.LoadSolarData | custom_components/energy_generation_report/sensor.py:90-166 | without billing data or without a recorder the solar data is kept; otherwise it becomes the daily totals of the recorded states |
| ReportSensor.Coordinator.Initialize | custom_components/energy_generation_report/sensor.py:85-88 | the solar data is loaded, then the periods are computed from it |
| ReportSensor.Coordinator.CurrentPeriodValue | custom_components/energy_generation_report/sensor.py:272-293 | None without periods or for an unknown type; otherwise the figure of a period with the latest end date |
| ReportSensor.NoBillingNoPeriods | custom_components/energy_generation_report/sensor.py:174-176 | an entry without billing data has no periods |
| ReportSensor.EntryPeriodsKeyed | custom_components/energy_generation_report/sensor.py:179-242 | there is one period per billing reading, and the period end dates are exactly the billing dates |
| ReportSensor.EntryPeriodsOrdered | custom_components/energy_generation_report/sensor.py:179-248 | periods come in strictly increasing order of end date, so the latest period is the last one |
| ReportStore.AddBilling | custom_components/energy_generation_report/__init__.py:129-133 | the date maps to the new record, every other date is unchanged, and the solar map is untouched |
| ReportStore.DeleteBilling | custom_components/energy_generation_report/__init__.py:158-159 | the date is removed if present, everything else is kept, and a missing date changes nothing |
| ReportStore.AddSolar | custom_components/energy_generation_report/__init__.py:178-181 | the date maps to the new record, every other date is unchanged, and the billing map is untouched |
| ReportStore.DeleteSolar | custom_components/energy_generation_report/__init__.py:204-205 | the date is removed if present, everything else is kept, and a missing date changes nothing |
| ReportStore.DayRange | custom_components/energy_generation_report/__init__.py:234-235 | the set holds exactly the days of [start, end] |
| ReportStore.Spread | custom_components/energy_generation_report/__init__.py:233-244 | every day of [start, end] gets the record; days outside are untouched |
| ReportStore.AddThenDeleteBilling | custom_components/energy_generation_report/__init__.py:129-159 | adding then deleting a date leaves it absent and every other date as it was |
| ReportStore.AddThenDeleteSolar | custom_components/energy_generation_report/__init__.py:178-205 | adding then deleting a date leaves it absent and every other date as it was |
| ReportStore.Integration.constructor | custom_components/energy_generation_report/__init__.py:106-111 | the entries start with the loaded data |
| ReportStore.Integration.AddBillingData | custom_components/energy_generation_report/__init__.py:115-140 | an unknown entry changes nothing; otherwise the reading is stored under its end date, overwriting, and the update event fires |
| ReportStore.Integration.UpdateBillingData | custom_components/energy_generation_report/__init__.py:142-144 | the same as adding |
| ReportStore.Integration.DeleteBillingData | custom_components/energy_generation_report/__init__.py:146-163 | the date is removed when present, and the event fires only then |
| ReportStore.Integration.AddSolarData | custom_components/energy_generation_report/__init__.py:165-186 | an unknown entry changes nothing; otherwise the day's manual value is stored, overwriting |
| ReportStore.Integration.UpdateSolarData | custom_components/energy_generation_report/__init__.py:188-190 | the same as adding |
| ReportStore.Integration.DeleteSolarData | custom_components/energy_generation_report/__init__.py:192-209 | the day is removed when present, and the event fires only then |
| ReportStore.Integration.AddSolarPeriodData | custom_components/energy_generation_report/__init__.py:211-249 | an unknown entry or a reversed range changes nothing; otherwise every day of the range gets total / days, marked with the total and the day count, and other days are untouched |
| ReportConfigFlow.SolarIdsMembers | custom_components/energy_generation_report/config_flow.py:38-44 | the first loop collects exactly the energy sensors whose lower-cased id contains "solar" |
| ReportConfigFlow.EnergyIdsMembers | custom_components/energy_generation_report/config_flow.py:47-50 | the fallback loop collects exactly the energy sensors |
| ReportConfigFlow.OfferedSpec | custom_components/energy_generation_report/config_flow.py:33-52 | if there is a solar energy sensor, exactly those are offered, else exactly the energy sensors; every offered id is an energy sensor; nothing is offered only when there is no energy sensor |
| ReportConfigFlow.GetEnergySensors | custom_components/energy_generation_report/config_flow.py:33-52 | the result is sorted and is a permutation of the collected ids |
| ReportConfigFlow.FormPeriodDaysInRange | custom_components/energy_generation_report/config_flow.py:105-107 | an entry created from the form has a billing period of 1 to 365 days |
| ReportConfigFlow.Merged | custom_components/energy_generation_report/config_flow.py:128 | submitted keys take the submitted values, and all other stored keys are kept |
| ReportConfigFlow.MergedIdentities | custom_components/energy_generation_report/config_flow.py:128 | re-submitting the stored data, or submitting nothing, changes nothing |
| ReportConfigFlow.ConfigFlow.constructor | custom_components/energy_generation_report/config_flow.py:55-58 | a new flow has no unique id |
| ReportConfigFlow.ConfigFlow.StepUser | custom_components/energy_generation_report/config_flow.py:60-115 | a sensor that is not offered gives `invalid_sensor` and no entry; an offered one becomes the unique id and creates the entry unless it is already configured; without input the form is shown, or the flow aborts when nothing can be offered |
| ReportConfigFlow.ConfigFlow.StepReconfigure | custom_components/energy_generation_report/config_flow.py:117-179 | with input, the entry is updated with the merged data; without input, the form is shown |
| Calendar.MondayOf | custom_components/switch_energy_statistics_estimation/sensor.py:313 | the Monday of a day's week is a Monday, at most six days earlier |
| Calendar.CivilYearMonth | custom_components/switch_energy_statistics_estimation/sensor.py:316 | the month of a day's `%Y-%m` key is in 1..12 |
| Calendar.CivilYearMonthStep | custom_components/switch_energy_statistics_estimation/sensor.py:316 | the next day is in the same month or in the next one (December is followed by January of the next year) |
| Calendar.EraYearStartGrows | custom_components/switch_energy_statistics_estimation/sensor.py:316 | a March-based year of the 400-year cycle has 366 days exactly when the following January-based year is a Gregorian leap year |
| Calendar.YearOfEraBracket | custom_components/switch_energy_statistics_estimation/sensor.py:316 | the year found for a day of the 400-year cycle is the one whose start is at or before it and whose successor's start is after it |
| Calendar.EpochMonths | custom_components/switch_energy_statistics_estimation/sensor.py:316 | 1970-01-01 is in January 1970 and 1969-12-31 in December 1969 |
| Calendar.LeapDayMonths | custom_components/switch_energy_statistics_estimation/sensor.py:316 | 2000-02-29 is in February 2000 and 2000-03-01 in March 2000 |
| Calendar.MondayOfWeek | custom_components/switch_energy_statistics_estimation/sensor.py:313 | every day from a Monday to the next Sunday has that Monday |
| SwitchSensor.DailyKeysAreDays | custom_components/switch_energy_statistics_estimation/sensor.py:307-317 | daily keys, and the keys of an unrecognised period, are equal exactly when the calendar days are |
| SwitchSensor.WeeklyKeysAreWeeks | custom_components/switch_energy_statistics_estimation/sensor.py:311-314 | weekly keys are equal exactly when the days have the same Monday |
| SwitchSensor.WeeklyKeyOfWeekDay | custom_components/switch_energy_statistics_estimation/sensor.py:311-314 | all days from a Monday to the next Sunday share the key of that Monday |
| SwitchSensor.MonthlyKeysAreMonths | custom_components/switch_energy_statistics_estimation/sensor.py:315-316 | monthly keys are equal exactly when year and month are |
| SwitchSensor.Put | custom_components/switch_energy_statistics_estimation/sensor.py:304-305 | dict assignment: the value is set, a new key is appended to the order, and an existing key keeps its place |
| SwitchSensor.AddToBucket | custom_components/switch_energy_statistics_estimation/sensor.py:300-305 | the bucket grows by the energy, starting from 0 when new; every other bucket is unchanged |
| SwitchSensor.DateKeyShape | custom_components/switch_energy_statistics_estimation/sensor.py:307-317 | a weekly key names the Monday of the instant's week, a monthly key a month 1..12; daily and unrecognised periods key by the day |
| SwitchSensor.Accrued | custom_components/switch_energy_statistics_estimation/sensor.py:271-273 | nothing accrues while the switch is off or before the first transition |
| SwitchSensor.AccruedNonNegative | custom_components/switch_energy_statistics_estimation/sensor.py:271-273 | a non-negative power rating accrues non-negative energy over a forward interval |
| SwitchSensor.EnergySensor.RecentAttribute | custom_components/switch_energy_statistics_estimation/sensor.py:347-350 | no attribute exactly for an empty history; otherwise at most 7 entries, the last one being the most recently inserted key with its value |
| SwitchSensor.RecentHistory | custom_components/switch_energy_statistics_estimation/sensor.py:347-350 | no attribute for an empty history; otherwise the last min(7, n) entries, in insertion order, with their values |
| SwitchSensor.Rollover | custom_components/switch_energy_statistics_estimation/sensor.py:319-328 | nothing changes when the current key exists; otherwise the total becomes 0, and a positive total is first stored under the current key |
| SwitchSensor.Transition | custom_components/switch_energy_statistics_estimation/sensor.py:266-298 | after an update the switch is on exactly when the state is "on", and the last change is now |
| SwitchSensor.TransitionAccrues | custom_components/switch_energy_statistics_estimation/sensor.py:270-283 | positive energy needs a known last change and an on switch; it is power × hours, added to both the total and the bucket of now, and every other bucket is unchanged |
| SwitchSensor.TransitionIdle | custom_components/switch_energy_statistics_estimation/sensor.py:285-298 | with nothing accrued and the bucket of now present, only the switch state and timestamp change |
| SwitchSensor.TransitionResets | custom_components/switch_energy_statistics_estimation/sensor.py:283-328 | when nothing was accrued and the bucket of `now` is missing, the total drops to 0 and is archived under the new period's key |
| SwitchSensor.ResetOnlyWhenIdle | custom_components/switch_energy_statistics_estimation/sensor.py:283-328 | conversely, a reset (bucket missing afterwards, or a total not moved by the accrual) implies nothing was accrued and the bucket was missing |
| SwitchSensor.EnergyGrowsOrResets | custom_components/switch_energy_statistics_estimation/sensor.py:275-328 | the running total never decreases except by a reset to 0 |
| SwitchSensor.OnIntervalEnergy | custom_components/switch_energy_statistics_estimation/sensor.py:271-276 | an on-interval of H hours at positive power P adds P × H, even across a period boundary |
| SwitchSensor.EnergySensor.constructor | custom_components/switch_energy_statistics_estimation/sensor.py:185-191 | a new sensor is off, with no last change, zero energy and an empty history |
| SwitchSensor.EnergySensor.UpdateHistoricalData | custom_components/switch_energy_statistics_estimation/sensor.py:300-305 | the bucket of the timestamp grows by the energy |
| SwitchSensor.EnergySensor.CheckPeriodReset | custom_components/switch_energy_statistics_estimation/sensor.py:319-328 | the fields change as the rollover describes |
| SwitchSensor.EnergySensor.UpdateFromSwitchState | custom_components/switch_energy_statistics_estimation/sensor.py:266-298 | the fields change as the transition describes, and the last state is recorded |
| SwitchSensor.EnergySensor.HandleSwitchStateChange | custom_components/switch_energy_statistics_estimation/sensor.py:256-264 | an event without a new state changes nothing; otherwise the sensor makes the transition to that state and records it as the last state |
| SwitchSensor.PowerReading | custom_components/switch_energy_statistics_estimation/sensor.py:424-427 | with a non-negative rating the reading is between 0 and the rating, and it equals the rating exactly when the switch is on (or the rating is 0) |
| SwitchSensor.PowerSensor.NativeValue | custom_components/switch_energy_statistics_estimation/sensor.py:424-427 | the gang power while on, 0 while off |
| SwitchSensor.AccruedIsPowerTimesHours | custom_components/switch_energy_statistics_estimation/sensor.py:424-427 | the power sensor reads the gang power when on and 0 when off, and the energy accrued over an interval is that reading × its hours |
| SwitchSensor.PowerSensor.constructor | custom_components/switch_energy_statistics_estimation/sensor.py:358-384 | a new power sensor is off |
| SwitchSensor.PowerSensor.HandleSwitchStateChange | custom_components/switch_energy_statistics_estimation/sensor.py:414-422 | the sensor is on exactly when the new state is "on", and an event without a state changes nothing |
| SwitchSensor.FriendlyName | custom_components/switch_energy_statistics_estimation/sensor.py:133-150 | "Unknown" for an empty id; the registry name when it is non-empty; otherwise the state's `friendly_name` attribute, or the fallback name when there is no state or no such attribute |
| SwitchSensor.FallbackNameShape | custom_components/switch_energy_statistics_estimation/sensor.py:150 | the fallback has the length of the last dotted segment, contains no dot or underscore, turns underscores into spaces, upper-cases letters that start a word and lower-cases the others |
| Text.AfterLastDot | custom_components/switch_energy_statistics_estimation/sensor.py:150 | the result is a suffix without dots, and it is preceded by a dot unless it is the whole id |
| Text.Title | custom_components/switch_energy_statistics_estimation/sensor.py:150 | each character is upper-cased after a non-letter and lower-cased after a letter |
| Text.Sort | custom_components/energy_generation_report/config_flow.py:52 | the result is sorted and a permutation of the input |
| Text.ContainsIff | custom_components/energy_generation_report/config_flow.py:42 | `Contains` holds exactly when the text occurs at some position |
| SwitchServices.FilterKeysMembers | custom_components/switch_energy_statistics_estimation/services.py:119-129 | the filter keeps exactly the keys in range |
| SwitchServices.FilterKeysDistinct | custom_components/switch_energy_statistics_estimation/services.py:119-129 | the filtered keys are distinct |
| SwitchServices.FilterKeysAll | custom_components/switch_energy_statistics_estimation/services.py:119-129 | when every key is in range, the filter keeps the list |
| SwitchServices.FilteredIsHistory | custom_components/switch_energy_statistics_estimation/services.py:118-130 | the filtered dict holds exactly the kept keys, with their values, in their original order |
| SwitchServices.FilterKeepsDay | custom_components/switch_energy_statistics_estimation/services.py:121-126 | a daily key is kept exactly when its day lies within the given bounds |
| SwitchServices.FilterKeepsPeriodKeys | custom_components/switch_energy_statistics_estimation/services.py:127-129 | weekly and monthly keys are always kept, with their values |
| SwitchServices.FilterUnbounded | custom_components/switch_energy_statistics_estimation/services.py:117-130 | without bounds, the filter is the identity, order included |
| SwitchServices.FilterStep | custom_components/switch_energy_statistics_estimation/services.py:119-126 | one loop iteration appends the next key exactly when it is kept |
| SwitchServices.FilterByDate | custom_components/switch_energy_statistics_estimation/services.py:117-130 | the loop builds the filtered dict |
| SwitchServices.ExportData | custom_components/switch_energy_statistics_estimation/services.py:98-142 | an unknown entity exports nothing; otherwise the published data is the history, filtered |
| SwitchServices.ResetEnergy | custom_components/switch_energy_statistics_estimation/services.py:54-71 | the running total becomes 0 and nothing else changes; an unknown entity changes nothing |
| SwitchServices.SetEnergy | custom_components/switch_energy_statistics_estimation/services.py:74-95 | the daily key of the date (today by default) is set to the value, overwriting; nothing else changes; an unknown entity changes nothing |
| SwitchServices.SetEnergyThenExport | custom_components/switch_energy_statistics_estimation/services.py:89-129 | after setting a day, an export whose range covers it shows the value, and other buckets keep theirs |
| SwitchConfigFlow.StatePassCount | custom_components/switch_energy_statistics_estimation/config_flow.py:36-45 | the state pass keeps exactly the ids with a switch or light prefix and no excluded part |
| SwitchConfigFlow.RegistryPassCount | custom_components/switch_energy_statistics_estimation/config_flow.py:48-57 | the registry pass adds each selected id not yet present, once |
| SwitchConfigFlow.CollectedSpec | custom_components/switch_energy_statistics_estimation/config_flow.py:31-59 | the collected ids are exactly the selected state ids and the switch or light registry ids; none contains an excluded part; the registry pass adds no duplicate |
| SwitchConfigFlow.GetSwitchEntities | custom_components/switch_energy_statistics_estimation/config_flow.py:31-59 | the result is sorted and a permutation of the collected ids |
| SwitchConfigFlow.GangOutcome | custom_components/switch_energy_statistics_estimation/config_flow.py:123-139 | each gang 1..count is in exactly one of the errors and the choices; a chosen gang maps to its non-empty, known selection; there are no errors exactly when every gang has one |
| SwitchConfigFlow.GangStep | custom_components/switch_energy_statistics_estimation/config_flow.py:124-133 | checking gang g adds it either to the errors ("required" or "invalid_switch_entity") or to the choices |
| SwitchConfigFlow.ValidateGangs | custom_components/switch_energy_statistics_estimation/config_flow.py:123-133 | the loop fills the errors and the choices |
| SwitchConfigFlow.BuildGangPowers | custom_components/switch_energy_statistics_estimation/config_flow.py:177-180 | the map has exactly the keys 1..count, each with the submitted power or 10 W |
| SwitchConfigFlow.ConfigFlow.constructor | custom_components/switch_energy_statistics_estimation/config_flow.py:68-73 | a new flow has no gang count or name and empty gang maps |
| SwitchConfigFlow.ConfigFlow.StepGangConfig | custom_components/switch_energy_statistics_estimation/config_flow.py:169-218 | with input, the power map is built and the entry created with it; without input, the form is shown |
| SwitchConfigFlow.ConfigFlow.StepGangEntities | custom_components/switch_energy_statistics_estimation/config_flow.py:110-167 | with valid input, the choices are stored and the power step is shown; otherwise the errors are shown, or the flow aborts when there is no switch entity |
| SwitchConfigFlow.ConfigFlow.StepUser | custom_components/switch_energy_statistics_estimation/config_flow.py:75-108 | with input, the gang count and name are stored and the gang-entity step follows; without input, the form is shown |

## Left out

- Home Assistant lifecycle: setup and unload of entries, `async_added_to_hass`, state restore (including the `float()` of a restored state), `Store` load and save, service registration, voluptuous schemas and form rendering. None of these holds logic of the modelled core.
- The event bus. A handler's "data updated" event is its `updated` result. `_async_notify_listeners` (calling each listener) is not modelled; listeners are plain integers identified by value.
- The recorder query of `_load_solar_data` (its window of `billing_period_days` days before the first date up to the day after the last) is not modelled. The query result is the `rows` input, time-ordered and already tagged with each state's date. The recorder's availability is the `recorderAvailable` input.
- `float()` parsing of recorded states: a state `float()` rejects is the `NotNumeric` value.
- The clock: `dt_util.utcnow()` is a `now` parameter.
- ReportStore.Integration.AddSolarPeriodData: every day of the range gets the same timestamp, while the source reads the clock once per day.
- Text.Lower, Text.Title, Text.ToLower, Text.ToUpper: ASCII-only case mapping, standing for Python's Unicode-aware `str.lower()` and `str.title()`. Nothing is lost for the inputs the source sees: Home Assistant entity ids are made of `a-z`, `0-9` and `_`.
- Floating point: all energy figures are exact `real`s. `round(_, 2)` in the energy sensor's `native_value` is not modelled, and the exactness of `total / days` is taken for granted.
- Date strings: ISO dates are day numbers, and their string order is day order (four-digit years). The switch sensor's `strftime` keys are a datatype with one constructor per granularity: a day, a week's Monday (the `%Y-W%U` string of a Monday is one-to-one with that Monday; it is a Sunday-based week number, not ISO 8601), and a year and month. Strings of different shapes never collide, so the datatype keeps their equalities. In the export filter, "parses as `%Y-%m-%d`" is "is a daily key".
- The `state.entity` lookups of the switch services become a map from entity id to sensor object. An id without a sensor behind it changes nothing.
- SwitchServices.ResetEnergy: the `period` argument is only logged, so it is not a parameter.
- `int()` of the submitted gang count: the count is an integer input. The gang-entity errors are keyed by gang number rather than by the `gang_{n}_entity` string.
- The entity-registry and state lookups of `get_entity_friendly_name` are inputs: the registry entry's name and the state's `friendly_name` attribute.
- The options flow of the switch estimator, the JavaScript card and editor, the zigbee converter definitions and the `const.py` files (their defaults appear as constants) are not part of this model.
- Concurrency: each handler is one sequential step.
