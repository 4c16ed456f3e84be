/** The oldest configuration helper (`LimaConfigHelper.py` at the top of
    the repository): a test configuration holds a full set of parameter
    defaults, unset keys being `None`; the parser reads the detector name and
    the defaults sections, then one configuration per test section, which
    may be `None` when the test is incomplete. */
module LegacyConfig {
  import opened Common
  import opened ConfigSource

  /** `dict.fromkeys(keys)` updated with `given` */
  function WithDefaults(keys: set<string>, given: Dict): (d: Dict)
    ensures d.Keys == keys + given.Keys
    ensures forall k :: k in given ==> d[k] == given[k]
    ensures forall k :: k in keys && k !in given ==> d[k] == Null
  {
    (map k | k in keys :: Null) + given
  }

  /** A `LimaTestConfiguration` of this revision. `get_acq_params` and
      `get_saving_params` return `acqDefaults` and `savingDefaults`. */
  datatype LegacySettings = LegacySettings(
    name: string, testType: string, detector: string, acqDefaults: Dict, savingDefaults: Dict)

  /** `LimaTestConfiguration(t_name, t_type, d_name, acq, saving)`: every
      acquisition and saving key has an entry, the given values override. */
  function NewConfiguration(keys: KeyTables, name: string, testType: string, detector: string,
                            acq: Dict, saving: Dict): (c: LegacySettings)
    ensures c.name == name && c.testType == testType && c.detector == detector
    ensures c.acqDefaults == WithDefaults(keys.acq.Keys, acq)
    ensures c.savingDefaults == WithDefaults(keys.saving.Keys, saving)
  {
    LegacySettings(name, testType, detector, WithDefaults(keys.acq.Keys, acq), WithDefaults(keys.saving.Keys, saving))
  }

  /** The three values of `default_sections`. */
  const LegacyDefaultSections: set<string> := {"Detector", "AcqDefaults", "SavingDefaults"}

  /** What `load_default_test` leaves in `default_test`, or the exception it
      lets through: the detector `name` is read outside the `try`, a missing
      or malformed default parameter (the saving `directory` included) only
      leaves no default test. */
  ghost function LegacyDefaultSpec(keys: KeyTables, ini: Ini): Result<Option<LegacySettings>, ConfigError> {
    var detName := Get(ini, "Detector", "name");
    if detName.Err? then Err(detName.error)
    else
      var acq := ReadAll(ini, "AcqDefaults", keys.acq, false);
      var saving := ReadAll(ini, "SavingDefaults", keys.saving, false);
      if acq.None? || saving.None? then Ok(None)
      else Ok(Some(NewConfiguration(keys, "default", "d_type", detName.value, acq.value, saving.value)))
  }

  /** A dictionary one of whose values is `None`. */
  predicate HasNull(d: Dict) {
    exists k :: k in d && d[k] == Null
  }

  /** The completeness check of `load_default_test` never rejects: every
      value read from a defaults section went through `float`, `int` or
      `str`, none of which gives `None`. */
  lemma DefaultsHaveNoNull(ini: Ini, section: string, keys: map<string, Kind>)
    requires ReadAll(ini, section, keys, false).Some?
    ensures !HasNull(ReadAll(ini, section, keys, false).value)
  {
    var d := ReadAll(ini, section, keys, false).value;
    forall k | k in d ensures d[k] != Null {
      assert Readable(ini, section, keys, k);
    }
  }

  /** What `load_test(name)` gives, or `None` when it raises (no such
      section, or a bad option: of this revision `repeat` is one). It gives
      no configuration without a default test or without a non-empty
      type. */
  ghost function LegacyLoadedSpec(keys: KeyTables, base: Option<LegacySettings>, ini: Ini, name: string)
    : Option<Option<LegacySettings>>
  {
    if name !in ini.options || !AllGood(keys, ini.options[name], false) then None
    else
      var t := Classified(keys, ini.options[name], false);
      if base.Some? && t.testType.Some? && t.testType.value != "" then
        Some(Some(NewConfiguration(keys, name, t.testType.value, base.value.detector,
                                   base.value.acqDefaults + t.acq, base.value.savingDefaults + t.saving)))
      else Some(None)
  }

  /** What loading each of the named sections gives. */
  ghost function LegacyLoadedAll(keys: KeyTables, base: Option<LegacySettings>, ini: Ini, names: seq<string>)
    : (r: seq<Option<Option<LegacySettings>>>)
    ensures |r| == |names|
  {
    if names == [] then [] else [LegacyLoadedSpec(keys, base, ini, names[0])] + LegacyLoadedAll(keys, base, ini, names[1..])
  }

  lemma {:induction false} LegacyLoadedAllAt(keys: KeyTables, base: Option<LegacySettings>, ini: Ini,
                                             names: seq<string>, i: nat)
    requires i < |names|
    ensures LegacyLoadedAll(keys, base, ini, names)[i] == LegacyLoadedSpec(keys, base, ini, names[i])
    decreases i
  {
    if i > 0 {
      LegacyLoadedAllAt(keys, base, ini, names[1..], i - 1);
    }
  }

  /** A test that loads without a default test loads as `None`, and so does
      one without a type. */
  lemma LegacyLoadedNeedsDefaultAndType(keys: KeyTables, base: Option<LegacySettings>, ini: Ini, name: string)
    requires LegacyLoadedSpec(keys, base, ini, name).Some?
    ensures var items := ini.options[name];
            LegacyLoadedSpec(keys, base, ini, name).value.Some? <==>
              base.Some? && "type" in items && items["type"] != ""
  {
  }

  /** A loaded test is named after its section, has the section's type and
      the detector of the default test, and holds every acquisition key:
      the section's converted value, else the default's, else `None`. */
  lemma LegacyLoadedAcq(keys: KeyTables, base: Option<LegacySettings>, ini: Ini, name: string)
    requires LegacyLoadedSpec(keys, base, ini, name).Some? && LegacyLoadedSpec(keys, base, ini, name).value.Some?
    ensures var c, items := LegacyLoadedSpec(keys, base, ini, name).value.value, ini.options[name];
            c.name == name && Some(c.testType) == Some(items["type"]) && c.detector == base.value.detector &&
            c.acqDefaults.Keys == keys.acq.Keys + base.value.acqDefaults.Keys &&
            (forall k :: k in keys.acq && k in items ==> c.acqDefaults[k] == Convert(keys.acq[k], items[k]).value) &&
            (forall k :: k in base.value.acqDefaults && k !in items ==> c.acqDefaults[k] == base.value.acqDefaults[k]) &&
            (forall k :: k in keys.acq && k !in items && k !in base.value.acqDefaults ==> c.acqDefaults[k] == Null)
  {
    ClassifiedAcq(keys, ini.options[name], false);
  }

  /** The same for the saving keys; `directory` is an ordinary key here. */
  lemma LegacyLoadedSaving(keys: KeyTables, base: Option<LegacySettings>, ini: Ini, name: string)
    requires Routable(keys)
    requires LegacyLoadedSpec(keys, base, ini, name).Some? && LegacyLoadedSpec(keys, base, ini, name).value.Some?
    ensures var c, items := LegacyLoadedSpec(keys, base, ini, name).value.value, ini.options[name];
            c.savingDefaults.Keys == keys.saving.Keys + base.value.savingDefaults.Keys &&
            (forall k :: k in keys.saving && k in items ==> c.savingDefaults[k] == Convert(keys.saving[k], items[k]).value) &&
            (forall k :: k in base.value.savingDefaults && k !in items ==> c.savingDefaults[k] == base.value.savingDefaults[k])
  {
    ClassifiedSaving(keys, ini.options[name], false);
  }

  /** `repeat`, which the current revision knows, is an invalid key here. */
  lemma LegacyRejectsRepeat(keys: KeyTables, ini: Ini, name: string, base: Option<LegacySettings>)
    requires Routable(keys)
    requires name in ini.options && "repeat" in ini.options[name]
    ensures LegacyLoadedSpec(keys, base, ini, name).None?
    ensures EntryError(keys, name, "repeat", false) == InvalidTestKey(name, "repeat")
  {
    assert BadEntry(keys, "repeat", ini.options[name]["repeat"], false);
  }

  class LegacyTestParser {
    /** The configuration file after `RawConfigParser.read`. */
    const config: Ini
    const keys: KeyTables
    /** The sections `_get_tests_list` skips. */
    const defaults: set<string>
    var defaultTest: Option<LegacySettings>
    /** `self.tests`, where a test that could not be built is `None`. */
    var tests: seq<Option<LegacySettings>>

    predicate Valid() {
      Routable(keys)
    }

    /** The part of `__init__` before the loads. */
    constructor (config: Ini)
      ensures this.config == config && keys == ConfigKeys && defaults == LegacyDefaultSections && Valid()
      ensures defaultTest == None && tests == []
    {
      this.config := config;
      keys := ConfigKeys;
      defaults := LegacyDefaultSections;
      defaultTest := None;
      tests := [];
      ConfigKeysRoutable();
    }

    /** `load_default_test` */
    method LoadDefaultTest() returns (err: Option<ConfigError>)
      modifies this`defaultTest
      ensures err.Some? <==> LegacyDefaultSpec(keys, config).Err?
      ensures err.Some? ==> err.value == LegacyDefaultSpec(keys, config).error && defaultTest == old(defaultTest)
      ensures err.None? && LegacyDefaultSpec(keys, config).value.None? ==> defaultTest == old(defaultTest)
      ensures err.None? && LegacyDefaultSpec(keys, config).value.Some? ==> defaultTest == LegacyDefaultSpec(keys, config).value
    {
      var detName := Get(config, "Detector", "name");
      if detName.Err? {
        return Some(detName.error);
      }
      err := None;
      var acq := ReadDefaults(config, "AcqDefaults", keys.acq, false);
      if acq.None? {
        return;
      }
      var saving := ReadDefaults(config, "SavingDefaults", keys.saving, false);
      if saving.None? {
        return;
      }
      DefaultsHaveNoNull(config, "AcqDefaults", keys.acq);
      DefaultsHaveNoNull(config, "SavingDefaults", keys.saving);
      defaultTest := Some(NewConfiguration(keys, "default", "d_type", detName.value, acq.value, saving.value));
    }

    /** `load_test(name)` */
    method LoadTest(name: string) returns (r: Result<Option<LegacySettings>, ConfigError>)
      requires Valid()
      ensures name !in config.options ==> r == Err(NoSection(name))
      ensures name in config.options && !AllGood(keys, config.options[name], false) ==>
                r.Err? &&
                exists k :: k in config.options[name] && BadEntry(keys, k, config.options[name][k], false) &&
                            r.error == EntryError(keys, name, k, false)
      ensures r.Ok? <==> LegacyLoadedSpec(keys, defaultTest, config, name).Some?
      ensures r.Ok? ==> Some(r.value) == LegacyLoadedSpec(keys, defaultTest, config, name)
    {
      if name !in config.options {
        return Err(NoSection(name));
      }
      var routed := ClassifyTestKeys(keys, name, config.options[name], false);
      if routed.Err? {
        return Err(routed.error);
      }
      var t := routed.value;
      if defaultTest.Some? && t.testType.Some? && t.testType.value != "" {
        var acq := defaultTest.value.acqDefaults + t.acq;
        var saving := defaultTest.value.savingDefaults + t.saving;
        r := Ok(Some(NewConfiguration(keys, name, t.testType.value, defaultTest.value.detector, acq, saving)));
      } else {
        r := Ok(None);
      }
    }

    /** `load_tests`: loads the test sections in file order and appends what
        each gives, `None` included; the first one that raises ends the
        loading. */
    method LoadTests() returns (err: Option<ConfigError>)
      requires Valid()
      modifies this`tests
      ensures var all := Present(LegacyLoadedAll(keys, defaultTest, config, TestsList(config.sections, defaults)));
              (err.None? <==> all.Some?) && (err.None? ==> tests == old(tests) + all.value)
    {
      var names := TestsList(config.sections, defaults);
      ghost var expected := LegacyLoadedAll(keys, defaultTest, config, names);
      var loaded: seq<Option<LegacySettings>> := [];
      var i := 0;
      while i < |names|
        invariant 0 <= i <= |names|
        invariant Present(expected[..i]) == Some(loaded)
        invariant tests == old(tests)
      {
        LegacyLoadedAllAt(keys, defaultTest, config, names, i);
        var t := LoadTest(names[i]);
        PresentNext(expected, i);
        if t.Err? {
          PresentStops(expected, i);
          assert LegacyLoadedAll(keys, defaultTest, config, TestsList(config.sections, defaults)) == expected;
          tests := tests + loaded;
          return Some(t.error);
        }
        loaded := loaded + [t.value];
        i := i + 1;
      }
      PresentWhole(expected);
      tests := tests + loaded;
      assert LegacyLoadedAll(keys, defaultTest, config, TestsList(config.sections, defaults)) == expected;
      err := None;
    }

    /** `__init__` after the file is read: the default test, then the
        tests. */
    method Load() returns (err: Option<ConfigError>)
      requires Valid()
      requires defaultTest == None && tests == []
      modifies this`defaultTest, this`tests
      ensures LegacyDefaultSpec(keys, config).Err? ==> err == Some(LegacyDefaultSpec(keys, config).error) && tests == []
      ensures LegacyDefaultSpec(keys, config).Ok? ==> defaultTest == LegacyDefaultSpec(keys, config).value
      ensures LegacyDefaultSpec(keys, config).Ok? ==>
                var all := Present(LegacyLoadedAll(keys, LegacyDefaultSpec(keys, config).value, config,
                                                   TestsList(config.sections, defaults)));
                (err.None? <==> all.Some?) && (err.None? ==> tests == all.value)
    {
      err := LoadDefaultTest();
      if err.Some? {
        return;
      }
      err := LoadTests();
    }
  }
}
