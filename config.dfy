/** The current configuration helper: the test configurations and the
    parser that builds the default test and one configuration per test
    section. A configuration is a value here. In the source the core
    backend's parameter setters update a test's dictionaries in place, through
    the reference its detector keeps; the detector model changes only its own
    copy. */
module Config {
  import opened Common
  import opened Lookup
  import opened ConfigSource

  /** A `LimaTestConfiguration`. `host` and `port` stay the option text they
      were read from. */
  datatype Settings = Settings(
    name: string, testType: Option<string>, repeat: int,
    detType: string, host: string, port: string,
    acq: Dict, saving: Dict, deviceName: Option<string>)

  /** `get_copy(name, type, repeat, acq, saving)`: the test's own name, type
      and repeat count, the detector fields of the base, and copies of the
      base parameters updated key by key with the test's. */
  function Copied(base: Settings, name: string, testType: Option<string>, repeat: int, acq: Dict, saving: Dict)
    : (r: Settings)
    ensures r.name == name && r.testType == testType && r.repeat == repeat
    ensures r.detType == base.detType && r.host == base.host && r.port == base.port &&
            r.deviceName == base.deviceName
    ensures r.acq.Keys == base.acq.Keys + acq.Keys && r.saving.Keys == base.saving.Keys + saving.Keys
    ensures forall k :: k in acq ==> r.acq[k] == acq[k]
    ensures forall k :: k in base.acq && k !in acq ==> r.acq[k] == base.acq[k]
    ensures forall k :: k in saving ==> r.saving[k] == saving[k]
    ensures forall k :: k in base.saving && k !in saving ==> r.saving[k] == base.saving[k]
  {
    Settings(name, testType, repeat, base.detType, base.host, base.port,
             base.acq + acq, base.saving + saving, base.deviceName)
  }

  /** The names of the defaults sections. */
  const DefaultSections: set<string> := {"Detector", "AcqDefaults", "SavingDefaults", "Tango"}

  /** What `load_default_test` leaves in `default_test`, or the exception
      it lets through: the detector `type`, `host` and `port`, and the Tango
      `LimaCCD` device when there is a Tango section, are read outside the
      `try`; a missing or malformed default parameter only leaves no
      default test. The saving `directory` is never read. */
  ghost function DefaultSpec(keys: KeyTables, ini: Ini): Result<Option<Settings>, ConfigError> {
    var detType := Get(ini, "Detector", "type");
    var host := Get(ini, "Detector", "host");
    var port := Get(ini, "Detector", "port");
    if detType.Err? then Err(detType.error)
    else if host.Err? then Err(host.error)
    else if port.Err? then Err(port.error)
    else if "Tango" in ini.options && Get(ini, "Tango", "LimaCCD").Err? then Err(Get(ini, "Tango", "LimaCCD").error)
    else
      var deviceName := if "Tango" in ini.options then Some(Get(ini, "Tango", "LimaCCD").value) else None;
      var acq := ReadAll(ini, "AcqDefaults", keys.acq, false);
      var saving := ReadAll(ini, "SavingDefaults", keys.saving, true);
      if acq.None? || saving.None? then Ok(None)
      else Ok(Some(Settings("", None, 1, detType.value + "Detector", host.value, port.value,
                            acq.value, saving.value, deviceName)))
  }

  /** The configuration `load_test` builds for section `name`, or `None`
      when it raises: no such section, a bad option, no default test, or no
      (or an empty) type. The saving directory is the test folder. */
  ghost function LoadedSpec(keys: KeyTables, base: Option<Settings>, ini: Ini, name: string, stamp: string)
    : Option<Settings>
  {
    if name !in ini.options || !AllGood(keys, ini.options[name], true) then None
    else
      var t := Classified(keys, ini.options[name], true);
      var path := TestFolderPath(name, t.baseDir, stamp);
      if base.Some? && t.testType.Some? && t.testType.value != "" then
        Some(Copied(base.value, name, t.testType, t.repeat, t.acq, t.saving["directory" := Str(path)]))
      else None
  }

  /** What loading each of the named sections gives. */
  ghost function LoadedAll(keys: KeyTables, base: Option<Settings>, ini: Ini, names: seq<string>, stamp: string)
    : (r: seq<Option<Settings>>)
    ensures |r| == |names|
  {
    if names == [] then [] else [LoadedSpec(keys, base, ini, names[0], stamp)] + LoadedAll(keys, base, ini, names[1..], stamp)
  }

  /** Entry `i` of `LoadedAll` is what loading section `names[i]` gives. */
  lemma {:induction false} LoadedAllAt(keys: KeyTables, base: Option<Settings>, ini: Ini, names: seq<string>,
                                       stamp: string, i: nat)
    requires i < |names|
    ensures LoadedAll(keys, base, ini, names, stamp)[i] == LoadedSpec(keys, base, ini, names[i], stamp)
    decreases i
  {
    if i > 0 {
      LoadedAllAt(keys, base, ini, names[1..], stamp, i - 1);
    }
  }

  /** A loaded test is named after its section, has the section's
      non-empty type and its repeat count (1 when absent), and keeps the
      detector of the default test. */
  lemma LoadedIdentity(keys: KeyTables, base: Option<Settings>, ini: Ini, name: string, stamp: string)
    requires Routable(keys)
    requires LoadedSpec(keys, base, ini, name, stamp).Some?
    ensures var s, items := LoadedSpec(keys, base, ini, name, stamp).value, ini.options[name];
            s.name == name && base.Some? && s.detType == base.value.detType &&
            s.host == base.value.host && s.port == base.value.port && s.deviceName == base.value.deviceName &&
            "type" in items && s.testType == Some(items["type"]) && items["type"] != "" &&
            s.repeat == (if "repeat" in items then ParseInt(items["repeat"]).value else 1)
  {
    var items := ini.options[name];
    if "repeat" in items {
      assert !BadEntry(keys, "repeat", items["repeat"], true);
    }
  }

  /** Whatever `directory` a test names, it saves into its own test folder
      under that directory. */
  lemma LoadedFolder(keys: KeyTables, base: Option<Settings>, ini: Ini, name: string, stamp: string)
    requires LoadedSpec(keys, base, ini, name, stamp).Some?
    ensures var s, items := LoadedSpec(keys, base, ini, name, stamp).value, ini.options[name];
            var dir := if "directory" in items then Some(items["directory"]) else None;
            s.saving["directory"] == Str(TestFolderPath(name, dir, stamp))
  {
  }

  /** A loaded test takes each acquisition parameter its section gives, and
      the default for the others. */
  lemma LoadedAcq(keys: KeyTables, base: Option<Settings>, ini: Ini, name: string, stamp: string)
    requires LoadedSpec(keys, base, ini, name, stamp).Some?
    ensures var s, items := LoadedSpec(keys, base, ini, name, stamp).value, ini.options[name];
            (forall k :: k in keys.acq && k in items ==> s.acq[k] == Convert(keys.acq[k], items[k]).value) &&
            (forall k :: k in base.value.acq && k !in items ==> s.acq[k] == base.value.acq[k])
  {
    ClassifiedAcq(keys, ini.options[name], true);
  }

  /** A loaded test takes each saving parameter its section gives other
      than `directory`, and the default for the others. */
  lemma LoadedSaving(keys: KeyTables, base: Option<Settings>, ini: Ini, name: string, stamp: string)
    requires Routable(keys)
    requires LoadedSpec(keys, base, ini, name, stamp).Some?
    ensures var s, items := LoadedSpec(keys, base, ini, name, stamp).value, ini.options[name];
            (forall k :: k in keys.saving && k in items && k != "directory" ==>
                           s.saving[k] == Convert(keys.saving[k], items[k]).value) &&
            (forall k :: k in base.value.saving && k !in items && k != "directory" ==>
                           s.saving[k] == base.value.saving[k])
  {
    ClassifiedSaving(keys, ini.options[name], true);
  }

  class LimaTestParser {
    /** The configuration file after `RawConfigParser.read`. */
    const config: Ini
    /** `LimaTestConfiguration.ACQ_KEYS` and `SAVING_KEYS`, as the parser
        reads them. */
    const keys: KeyTables
    /** The sections `_get_tests_list` skips. */
    const defaults: set<string>
    var defaultTest: Option<Settings>
    var tests: seq<Settings>

    predicate Valid() {
      Routable(keys)
    }

    /** The part of `__init__` before the loads. */
    constructor (config: Ini)
      ensures this.config == config && keys == ConfigKeys && defaults == DefaultSections && Valid()
      ensures defaultTest == None && tests == []
    {
      this.config := config;
      keys := ConfigKeys;
      defaults := DefaultSections;
      defaultTest := None;
      tests := [];
      ConfigKeysRoutable();
    }

    /** `load_default_test` */
    method LoadDefaultTest() returns (err: Option<ConfigError>)
      modifies this`defaultTest
      ensures err.Some? <==> DefaultSpec(keys, config).Err?
      ensures err.Some? ==> err.value == DefaultSpec(keys, config).error && defaultTest == old(defaultTest)
      ensures err.None? && DefaultSpec(keys, config).value.None? ==> defaultTest == old(defaultTest)
      ensures err.None? && DefaultSpec(keys, config).value.Some? ==> defaultTest == DefaultSpec(keys, config).value
    {
      var detType := Get(config, "Detector", "type");
      if detType.Err? {
        return Some(detType.error);
      }
      var host := Get(config, "Detector", "host");
      if host.Err? {
        return Some(host.error);
      }
      var port := Get(config, "Detector", "port");
      if port.Err? {
        return Some(port.error);
      }
      var deviceName: Option<string> := None;
      if "Tango" in config.options {
        var device := Get(config, "Tango", "LimaCCD");
        if device.Err? {
          return Some(device.error);
        }
        deviceName := Some(device.value);
      }
      err := None;
      var acq := ReadDefaults(config, "AcqDefaults", keys.acq, false);
      if acq.None? {
        return;
      }
      var saving := ReadDefaults(config, "SavingDefaults", keys.saving, true);
      if saving.None? {
        return;
      }
      defaultTest := Some(Settings("", None, 1, detType.value + "Detector", host.value, port.value,
                                   acq.value, saving.value, deviceName));
    }

    /** `load_test(name)`, with `stamp` the date stamp of the moment. The test folder is created
        before the default test and the type are checked, so a test that
        then raises still leaves its folder behind. */
    method LoadTest(fs: FileSystem, name: string, stamp: string) returns (r: Result<Settings, ConfigError>)
      requires Valid()
      modifies fs
      ensures name !in config.options ==> r == Err(NoSection(name)) && fs.dirs == old(fs.dirs)
      ensures name in config.options && !AllGood(keys, config.options[name], true) ==>
                fs.dirs == old(fs.dirs) && r.Err? &&
                exists k :: k in config.options[name] && BadEntry(keys, k, config.options[name][k], true) &&
                            r.error == EntryError(keys, name, k, true)
      ensures name in config.options && AllGood(keys, config.options[name], true) ==>
                fs.dirs == old(fs.dirs) +
                  {TestFolderPath(name, Classified(keys, config.options[name], true).baseDir, stamp)}
      ensures r.Ok? <==> LoadedSpec(keys, defaultTest, config, name, stamp).Some?
      ensures r.Ok? ==> Some(r.value) == LoadedSpec(keys, defaultTest, config, name, stamp)
      ensures r.Err? && name in config.options && AllGood(keys, config.options[name], true) ==> r.error == InvalidTest(name)
    {
      if name !in config.options {
        return Err(NoSection(name));
      }
      var routed := ClassifyTestKeys(keys, name, config.options[name], true);
      if routed.Err? {
        return Err(routed.error);
      }
      var t := routed.value;
      var path := fs.CreateTestFolder(name, t.baseDir, stamp);
      var saving := t.saving["directory" := Str(path)];
      if defaultTest.Some? && t.testType.Some? && t.testType.value != "" {
        r := Ok(Copied(defaultTest.value, name, t.testType, t.repeat, t.acq, saving));
      } else {
        r := Err(InvalidTest(name));
      }
    }

    /** `load_tests`: loads the test sections in file order and appends
        each configuration; the first one that raises ends the loading. */
    method LoadTests(fs: FileSystem, stamp: string) returns (err: Option<ConfigError>)
      requires Valid()
      modifies this`tests, fs
      ensures var all := Present(LoadedAll(keys, defaultTest, config, TestsList(config.sections, defaults), stamp));
              (err.None? <==> all.Some?) && (err.None? ==> tests == old(tests) + all.value)
    {
      var names := TestsList(config.sections, defaults);
      ghost var expected := LoadedAll(keys, defaultTest, config, names, stamp);
      var loaded: seq<Settings> := [];
      var i := 0;
      while i < |names|
        invariant 0 <= i <= |names|
        invariant Present(expected[..i]) == Some(loaded)
        invariant tests == old(tests)
      {
        LoadedAllAt(keys, defaultTest, config, names, stamp, i);
        var t := LoadTest(fs, names[i], stamp);
        PresentNext(expected, i);
        if t.Err? {
          PresentStops(expected, i);
          assert LoadedAll(keys, defaultTest, config, TestsList(config.sections, defaults), stamp) == expected;
          tests := tests + loaded;
          return Some(t.error);
        }
        loaded := loaded + [t.value];
        i := i + 1;
      }
      PresentWhole(expected);
      tests := tests + loaded;
      assert LoadedAll(keys, defaultTest, config, TestsList(config.sections, defaults), stamp) == expected;
      err := None;
    }

    /** `__init__` after the file is read: the default test, then the
        tests. */
    method Load(fs: FileSystem, stamp: string) returns (err: Option<ConfigError>)
      requires Valid()
      requires defaultTest == None && tests == []
      modifies this`defaultTest, this`tests, fs
      ensures DefaultSpec(keys, config).Err? ==> err == Some(DefaultSpec(keys, config).error) && tests == []
      ensures DefaultSpec(keys, config).Ok? ==> defaultTest == DefaultSpec(keys, config).value
      ensures DefaultSpec(keys, config).Ok? ==>
                var all := Present(LoadedAll(keys, DefaultSpec(keys, config).value, config,
                                             TestsList(config.sections, defaults), stamp));
                (err.None? <==> all.Some?) && (err.None? ==> tests == all.value)
    {
      err := LoadDefaultTest();
      if err.Some? {
        return;
      }
      err := LoadTests(fs, stamp);
    }
  }
}
