/** The configuration flow of the switch energy estimator: list the switch
    and light entities a gang can be bound to, validate the gang-to-entity
    choices, and collect one power rating per gang. Host lookups are inputs:
    `states` lists the entity ids that currently have a state, `registry` the
    entity registry's entries. */
module SwitchConfigFlow {
  import opened Wrappers
  import opened Text

  const DefaultGangPower: real := 10.0
  const AbortNoSwitchEntities: string := "no_switch_entities"

  /** Substrings that mark an entity as a sensor-like companion of a switch. */
  const ExcludedParts: seq<string> := [
    "_linkquality", "_update_available", "_update_state",
    "_battery", "_signal_strength", "_voltage", "_power",
    "_energy", "_current", "_temperature", "_humidity"]

  datatype RegistryEntry = RegistryEntry(entityId: string, domain: string)

  /** `entity_id.startswith(("switch.", "light."))`. */
  predicate HasSwitchPrefix(id: string) {
    "switch." <= id || "light." <= id
  }

  predicate IsExcluded(id: string) {
    exists i :: 0 <= i < |ExcludedParts| && Contains(id, ExcludedParts[i])
  }

  /** The test of the first loop, over entity states. */
  predicate StateSelected(id: string) {
    HasSwitchPrefix(id) && !IsExcluded(id)
  }

  /** The test of the second loop, over registry entries, before the duplicate check. */
  predicate RegistrySelected(e: RegistryEntry) {
    (e.domain == "switch" || e.domain == "light") && !IsExcluded(e.entityId)
  }

  /** The list after the first loop over `states`. */
  function StatePass(states: seq<string>): seq<string> {
    if states == [] then []
    else
      var id := states[|states| - 1];
      StatePass(states[..|states| - 1]) + (if StateSelected(id) then [id] else [])
  }

  /** The list after the second loop has seen `registry`, starting from `acc`. */
  function RegistryPass(acc: seq<string>, registry: seq<RegistryEntry>): seq<string> {
    if registry == [] then acc
    else
      var prev := RegistryPass(acc, registry[..|registry| - 1]);
      var e := registry[|registry| - 1];
      if RegistrySelected(e) && e.entityId !in prev then prev + [e.entityId] else prev
  }

  /** The unsorted list `get_switch_entities` builds. */
  function Collected(states: seq<string>, registry: seq<RegistryEntry>): seq<string> {
    RegistryPass(StatePass(states), registry)
  }

  function RegistryIds(registry: seq<RegistryEntry>): set<string> {
    set e | e in registry && RegistrySelected(e) :: e.entityId
  }

  lemma {:induction false} StatePassCount(states: seq<string>)
    ensures forall id :: multiset(StatePass(states))[id] == if StateSelected(id) then multiset(states)[id] else 0
  {
    if states != [] {
      var init := states[..|states| - 1];
      StatePassCount(init);
      assert states == init + [states[|states| - 1]];
    }
  }

  lemma {:induction false} RegistryPassCount(acc: seq<string>, registry: seq<RegistryEntry>)
    ensures forall id :: id in RegistryPass(acc, registry) <==> id in acc || id in RegistryIds(registry)
    ensures forall id :: id in acc ==> multiset(RegistryPass(acc, registry))[id] == multiset(acc)[id]
    ensures forall id :: id !in acc ==> multiset(RegistryPass(acc, registry))[id] <= 1
  {
    if registry != [] {
      var init := registry[..|registry| - 1];
      var e := registry[|registry| - 1];
      RegistryPassCount(acc, init);
      assert registry == init + [e];
      assert RegistryIds(registry) == RegistryIds(init) + (if RegistrySelected(e) then {e.entityId} else {});
    }
  }

  /** What `get_switch_entities` collects: exactly the selected state ids
      (with their multiplicity) and the selected registry ids, none of them
      excluded; the registry pass never repeats an id. */
  lemma CollectedSpec(states: seq<string>, registry: seq<RegistryEntry>)
    ensures forall id :: id in Collected(states, registry) <==>
      (id in states && StateSelected(id)) || id in RegistryIds(registry)
    ensures forall id :: id in Collected(states, registry) ==> !IsExcluded(id)
    ensures forall id :: id in states && StateSelected(id) ==>
      multiset(Collected(states, registry))[id] == multiset(states)[id]
    ensures forall id :: !(id in states && StateSelected(id)) ==> multiset(Collected(states, registry))[id] <= 1
  {
    StatePassCount(states);
    var acc := StatePass(states);
    RegistryPassCount(acc, registry);
    forall id | id in Collected(states, registry)
      ensures !IsExcluded(id)
    {
      if id !in acc {
        var e :| e in registry && RegistrySelected(e) && e.entityId == id;
      }
    }
  }

  /** `get_switch_entities`. */
  method GetSwitchEntities(states: seq<string>, registry: seq<RegistryEntry>) returns (r: seq<string>)
    ensures Sorted(r)
    ensures multiset(r) == multiset(Collected(states, registry))
  {
    var found: seq<string> := [];
    var i := 0;
    while i < |states|
      invariant 0 <= i <= |states|
      invariant found == StatePass(states[..i])
    {
      assert states[..i + 1][..i] == states[..i];
      if StateSelected(states[i]) {
        found := found + [states[i]];
      }
      i := i + 1;
    }
    assert states[..i] == states;
    var j := 0;
    while j < |registry|
      invariant 0 <= j <= |registry|
      invariant found == RegistryPass(StatePass(states), registry[..j])
    {
      assert registry[..j + 1][..j] == registry[..j];
      var e := registry[j];
      if RegistrySelected(e) && e.entityId !in found {
        found := found + [e.entityId];
      }
      j := j + 1;
    }
    assert registry[..j] == registry;
    r := Sort(found);
  }

  /** `current_states`: ids with a state and a switch or light prefix. */
  function CurrentSwitchStates(states: seq<string>): set<string> {
    set id | id in states && HasSwitchPrefix(id)
  }

  /** `all_entities`: the offered entities together with the current states. */
  function KnownEntities(states: seq<string>, registry: seq<RegistryEntry>): set<string> {
    (set id | id in Collected(states, registry)) + CurrentSwitchStates(states)
  }

  // ---------------------------------------------------------------------------
  // Gang validation and gang powers

  datatype GangError = Required | InvalidSwitchEntity

  /** The verdict on gang `g`: no selection (missing or empty) is "required",
      a selection outside `known` is "invalid_switch_entity". */
  function GangCheck(selections: map<int, string>, known: set<string>, g: int): Option<GangError> {
    if g !in selections || selections[g] == "" then Some(Required)
    else if selections[g] !in known then Some(InvalidSwitchEntity)
    else None
  }

  /** The `errors` dict the validation loop fills, keyed by gang number. */
  function GangErrors(count: int, selections: map<int, string>, known: set<string>): map<int, GangError> {
    map g | 1 <= g <= count && GangCheck(selections, known, g).Some? :: GangCheck(selections, known, g).value
  }

  /** The `gang_entities` dict the validation loop fills. */
  function GangChoices(count: int, selections: map<int, string>, known: set<string>): map<int, string> {
    map g | 1 <= g <= count && g in selections && GangCheck(selections, known, g).None? :: selections[g]
  }

  /** Every gang 1..count ends up in exactly one of the two dicts; an
      accepted gang maps to the entity selected for it, and the flow can
      advance exactly when every gang has a known, non-empty selection. */
  lemma GangOutcome(count: int, selections: map<int, string>, known: set<string>)
    ensures GangErrors(count, selections, known).Keys !! GangChoices(count, selections, known).Keys
    ensures forall g ::
      (g in GangErrors(count, selections, known) || g in GangChoices(count, selections, known)) <==> 1 <= g <= count
    ensures forall g :: g in GangChoices(count, selections, known) ==>
      g in selections && selections[g] != "" && selections[g] in known
      && GangChoices(count, selections, known)[g] == selections[g]
    ensures GangErrors(count, selections, known) == map[] <==>
      forall g :: 1 <= g <= count ==> g in selections && selections[g] != "" && selections[g] in known
  {
    var errs := GangErrors(count, selections, known);
    if errs == map[] {
      forall g | 1 <= g <= count
        ensures g in selections && selections[g] != "" && selections[g] in known
      {
        assert g !in errs;
      }
    }
  }

  /** Extending the validation by gang `g`. */
  lemma GangStep(g: int, selections: map<int, string>, known: set<string>)
    requires 1 <= g
    ensures GangErrors(g, selections, known)
      == if GangCheck(selections, known, g).Some?
         then GangErrors(g - 1, selections, known)[g := GangCheck(selections, known, g).value]
         else GangErrors(g - 1, selections, known)
    ensures GangChoices(g, selections, known)
      == if GangCheck(selections, known, g).None?
         then GangChoices(g - 1, selections, known)[g := selections[g]]
         else GangChoices(g - 1, selections, known)
  {
    var e, e' := GangErrors(g - 1, selections, known), GangErrors(g, selections, known);
    var c, c' := GangChoices(g - 1, selections, known), GangChoices(g, selections, known);
    if GangCheck(selections, known, g).Some? {
      assert e'.Keys == e.Keys + {g};
      assert c'.Keys == c.Keys;
    } else {
      assert e'.Keys == e.Keys;
      assert c'.Keys == c.Keys + {g};
    }
  }

  /** The validation loop of `async_step_gang_entities`. */
  method ValidateGangs(count: int, selections: map<int, string>, known: set<string>)
    returns (errors: map<int, GangError>, chosen: map<int, string>)
    ensures errors == GangErrors(count, selections, known)
    ensures chosen == GangChoices(count, selections, known)
  {
    errors, chosen := map[], map[];
    var g := 1;
    while g <= count
      invariant 1 <= g <= (if count < 1 then 1 else count + 1)
      invariant errors == GangErrors(g - 1, selections, known)
      invariant chosen == GangChoices(g - 1, selections, known)
    {
      GangStep(g, selections, known);
      var selected := if g in selections then selections[g] else "";
      if selected == "" {
        errors := errors[g := Required];
      } else if selected !in known {
        errors := errors[g := InvalidSwitchEntity];
      } else {
        chosen := chosen[g := selected];
      }
      g := g + 1;
    }
    if count < 1 {
      assert errors == GangErrors(count, selections, known);
    }
  }

  /** The gang-power dict of `async_step_gang_config`: one entry per gang
      1..count, the submitted value or 10 W when none was submitted. */
  method BuildGangPowers(count: int, input: map<int, real>) returns (powers: map<int, real>)
    ensures forall g :: g in powers <==> 1 <= g <= count
    ensures forall g :: g in powers ==> powers[g] == (if g in input then input[g] else DefaultGangPower)
  {
    powers := map[];
    var g := 1;
    while g <= count
      invariant 1 <= g <= (if count < 1 then 1 else count + 1)
      invariant forall h :: h in powers <==> 1 <= h < g
      invariant forall h :: h in powers ==> powers[h] == (if h in input then input[h] else DefaultGangPower)
    {
      powers := powers[g := if g in input then input[g] else DefaultGangPower];
      g := g + 1;
    }
  }

  // ---------------------------------------------------------------------------
  // The flow

  datatype FlowResult =
    | ShowForm(stepId: string, errors: map<int, GangError>)
    | Abort(reason: string)
    | CreateEntry(title: string, gangCount: int, gangPowers: map<int, real>, gangEntities: map<int, string>)

  class ConfigFlow {
    var gangCount: Option<int>
    var name: Option<string>
    var gangEntities: map<int, string>
    var gangPowers: map<int, real>

    constructor()
      ensures gangCount == None && name == None && gangEntities == map[] && gangPowers == map[]
    {
      gangCount, name := None, None;
      gangEntities, gangPowers := map[], map[];
    }

    /** `async_step_gang_config`. */
    method StepGangConfig(input: Option<map<int, real>>) returns (result: FlowResult)
      requires gangCount.Some? && name.Some?
      modifies this`gangPowers
      ensures input.None? ==> gangPowers == old(gangPowers) && result == ShowForm("gang_config", map[])
      ensures input.Some? ==> forall g :: g in gangPowers <==> 1 <= g <= gangCount.value
      ensures input.Some? ==> forall g :: g in gangPowers ==>
        gangPowers[g] == (if g in input.value then input.value[g] else DefaultGangPower)
      ensures input.Some? ==> result == CreateEntry(name.value, gangCount.value, gangPowers, gangEntities)
    {
      if input.Some? {
        gangPowers := BuildGangPowers(gangCount.value, input.value);
        return CreateEntry(name.value, gangCount.value, gangPowers, gangEntities);
      }
      return ShowForm("gang_config", map[]);
    }

    /** `async_step_gang_entities`: with input, validate every gang against
      the known switch entities and advance to the power step when nothing
      is wrong; otherwise (re)show the form, or abort when there is no switch
      entity to offer. */
    method StepGangEntities(input: Option<map<int, string>>, states: seq<string>, registry: seq<RegistryEntry>)
      returns (result: FlowResult)
      requires gangCount.Some? && name.Some?
      modifies this`gangEntities, this`gangPowers
      ensures gangPowers == old(gangPowers)
      ensures var known := KnownEntities(states, registry);
        if input.Some? && GangErrors(gangCount.value, input.value, known) == map[] then
          gangEntities == GangChoices(gangCount.value, input.value, known)
          && result == ShowForm("gang_config", map[])
        else
          gangEntities == old(gangEntities)
          && result == (if Collected(states, registry) == [] then Abort(AbortNoSwitchEntities)
                        else ShowForm("gang_entities", if input.Some? then GangErrors(gangCount.value, input.value, known) else map[]))
    {
      var errors: map<int, GangError> := map[];
      ghost var known := KnownEntities(states, registry);
      if input.Some? {
        var available := GetSwitchEntities(states, registry);
        var allEntities := (set id | id in available) + CurrentSwitchStates(states);
        assert allEntities == known by {
          assert forall id :: id in available <==> id in multiset(available);
          assert forall id :: id in Collected(states, registry) <==> id in multiset(Collected(states, registry));
        }
        var chosen;
        errors, chosen := ValidateGangs(gangCount.value, input.value, allEntities);
        if errors == map[] {
          gangEntities := chosen;
          result := StepGangConfig(None);
          return;
        }
      }
      var switchEntities := GetSwitchEntities(states, registry);
      if switchEntities == [] {
        assert |Collected(states, registry)| == |multiset(switchEntities)| == 0;
        return Abort(AbortNoSwitchEntities);
      }
      assert Collected(states, registry) != [] by {
        assert switchEntities[0] in multiset(switchEntities);
      }
      return ShowForm("gang_entities", errors);
    }

    /** `async_step_user`: with input, store the gang count and name, then
      go on to the gang-entity step without input; without input, show the form. */
    method StepUser(input: Option<(int, string)>, states: seq<string>, registry: seq<RegistryEntry>)
      returns (result: FlowResult)
      modifies this`gangCount, this`name, this`gangEntities, this`gangPowers
      ensures gangEntities == old(gangEntities) && gangPowers == old(gangPowers)
      ensures input.None? ==> gangCount == old(gangCount) && name == old(name) && result == ShowForm("user", map[])
      ensures input.Some? ==> gangCount == Some(input.value.0) && name == Some(input.value.1)
      ensures input.Some? ==>
        result == if Collected(states, registry) == [] then Abort(AbortNoSwitchEntities)
                  else ShowForm("gang_entities", map[])
    {
      if input.None? {
        return ShowForm("user", map[]);
      }
      gangCount, name := Some(input.value.0), Some(input.value.1);
      result := StepGangEntities(None, states, registry);
    }
  }
}
