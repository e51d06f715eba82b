/**
 * Which validators take part in a scan. A validator is known here only by
 * its identifier and by the setting that switches it on, if it has one; the
 * rule it applies to the share is not part of this model.
 */
module Validators {
  import opened Wrappers
  import opened Settings
  import opened Subsequences

  datatype Validator = Validator(id: string, setting: Option<SettingDefinition>)

  /** `validatorEnabled`: a validator without a setting is always on, otherwise its setting's current value decides. */
  predicate ValidatorEnabled(store: Store, v: Validator)
    ensures v.setting.None? ==> ValidatorEnabled(store, v)
    ensures v.setting.Some? && v.setting.value.key !in store ==> !ValidatorEnabled(store, v)
    ensures v.setting.Some? && v.setting.value.key in store ==>
              (ValidatorEnabled(store, v) <==> Truthy(store[v.setting.value.key]))
  {
    v.setting.None? || Truthy(GetValue(store, v.setting.value.key))
  }

  /** `validators.filter(validatorEnabled)`, evaluated against the store as it is now. */
  function EnabledValidators(validators: seq<Validator>, store: Store): (r: seq<Validator>)
    ensures |r| <= |validators|
    ensures forall v :: v in r <==> v in validators && ValidatorEnabled(store, v)
  {
    if validators == [] then []
    else
      var rest := EnabledValidators(validators[1..], store);
      if ValidatorEnabled(store, validators[0]) then [validators[0]] + rest else rest
  }

  /** The filter keeps the order of the validator list. */
  lemma {:induction false} EnabledIsSubsequence(validators: seq<Validator>, store: Store)
    ensures IsSubsequence(EnabledValidators(validators, store), validators)
  {
    if validators != [] {
      var rest := EnabledValidators(validators[1..], store);
      EnabledIsSubsequence(validators[1..], store);
      if ValidatorEnabled(store, validators[0]) {
        assert EnabledValidators(validators, store) == [validators[0]] + rest;
        assert ([validators[0]] + rest)[1..] == rest;
      } else {
        assert EnabledValidators(validators, store) == rest;
        assert rest != [] ==> rest[0] in rest && rest[0] != validators[0];
      }
    }
  }

  /**
   * The filter drops no occurrence of an enabled validator and keeps none of a
   * disabled one: with IsSubsequence this determines the result completely.
   */
  lemma {:induction false} EnabledMultiplicity(validators: seq<Validator>, store: Store, v: Validator)
    ensures multiset(EnabledValidators(validators, store))[v]
         == if ValidatorEnabled(store, v) then multiset(validators)[v] else 0
  {
    if validators != [] {
      EnabledMultiplicity(validators[1..], store, v);
      assert validators == [validators[0]] + validators[1..];
      assert multiset(validators) == multiset{validators[0]} + multiset(validators[1..]);
    }
  }

  /**
   * Late binding: the filter looks at nothing but the current truthiness of the
   * validators' own settings, so two stores that agree on those give the same
   * list however they were reached.
   */
  lemma {:induction false} EnabledDependsOnlyOnSettings(validators: seq<Validator>, s1: Store, s2: Store)
    requires forall v :: v in validators && v.setting.Some? ==>
               (Truthy(GetValue(s1, v.setting.value.key)) <==> Truthy(GetValue(s2, v.setting.value.key)))
    ensures EnabledValidators(validators, s1) == EnabledValidators(validators, s2)
  {
    if validators != [] {
      assert validators[0] in validators;
      assert forall v :: v in validators[1..] ==> v in validators;
      EnabledDependsOnlyOnSettings(validators[1..], s1, s2);
    }
  }

  /** Switching one validator's setting between two scans switches that validator in the next one. */
  lemma ToggleTakesEffect(validators: seq<Validator>, store: Store, v: Validator, value: Value)
    requires v in validators && v.setting.Some?
    ensures v in EnabledValidators(validators, store[v.setting.value.key := value]) <==> Truthy(value)
  {
  }

  /** `validators.map(validator => validator.setting)`; a validator without a setting contributes `undefined`. */
  function ValidatorSettings(validators: seq<Validator>): (r: seq<Option<SettingDefinition>>)
    ensures |r| == |validators|
    ensures forall i :: 0 <= i < |validators| ==> r[i] == validators[i].setting
  {
    if validators == [] then [] else [validators[0].setting] + ValidatorSettings(validators[1..])
  }

  /** The definition list handed to the settings manager: every validator's setting, then the built-in ones. */
  function Definitions(validators: seq<Validator>): (r: seq<Option<SettingDefinition>>)
    ensures |r| == |validators| + 2
    ensures forall i :: 0 <= i < |validators| ==> r[i] == validators[i].setting
    ensures r[|validators|] == Some(BuiltinDefinitions()[0]) && r[|validators| + 1] == Some(BuiltinDefinitions()[1])
    ensures forall d :: d in BuiltinDefinitions() ==> Some(d) in r
  {
    ValidatorSettings(validators) + [Some(BuiltinDefinitions()[0]), Some(BuiltinDefinitions()[1])]
  }
}
