/** What both revisions of the configuration helper share: the parsed
    configuration file, the typed parameter keys, the conversion of option
    text to values, the reading of a defaults section, the list of test
    sections, and the routing of one test section's options. */
module ConfigSource {
  import opened Common

  /** A configuration file as `RawConfigParser` holds it, with option names
      kept case-sensitive: the section names in file order and each
      section's options. */
  datatype Ini = Ini(sections: seq<string>, options: map<string, map<string, string>>) {
    ghost predicate Valid() {
      (forall i, j :: 0 <= i < j < |sections| ==> sections[i] != sections[j]) &&
      (forall s :: s in options <==> s in sections)
    }
  }

  /** The exceptions the configuration helpers raise or catch. */
  datatype ConfigError =
    | NoSection(section: string)
    | NoOption(section: string, option: string)
    | InvalidTestKey(test: string, key: string)
    | BadValue(test: string, key: string)
    | InvalidTest(test: string)

  /** `config.get(section, option)` */
  function Get(ini: Ini, section: string, option: string): (r: Result<string, ConfigError>)
    ensures r.Ok? <==> section in ini.options && option in ini.options[section]
    ensures r.Ok? ==> r.value == ini.options[section][option]
    ensures r.Err? && section !in ini.options ==> r.error == NoSection(section)
    ensures r.Err? && section in ini.options ==> r.error == NoOption(section, option)
  {
    if section !in ini.options then Err(NoSection(section))
    else if option !in ini.options[section] then Err(NoOption(section, option))
    else Ok(ini.options[section][option])
  }

  /** The Python type a parameter's text is converted with. */
  datatype Kind = FloatKind | IntKind | StrKind

  /** `float(text)`, `int(text)` or `str(text)`; `None` for the
      `ValueError` of the first two. */
  function Convert(k: Kind, text: string): (r: Option<Value>)
    ensures k == StrKind ==> r == Some(Str(text))
    ensures k == IntKind ==> (r.Some? <==> ParseInt(text).Some?) && (r.Some? ==> r.value == Int(ParseInt(text).value))
    ensures k == FloatKind ==> (r.Some? <==> IsFloatText(text)) && (r.Some? ==> r.value == Float(text))
  {
    match k
    case StrKind => Some(Str(text))
    case IntKind => (match ParseInt(text) case Some(i) => Some(Int(i)) case None => None)
    case FloatKind => if IsFloatText(text) then Some(Float(text)) else None
  }

  /** `LimaTestConfiguration.ACQ_KEYS` */
  const AcqKeys: map<string, Kind> := map[
    "acqExpoTime" := FloatKind,
    "acqNbFrames" := IntKind,
    "acqMode" := StrKind,
    "accMaxExpoTime" := FloatKind,
    "concatNbFrames" := IntKind,
    "triggerMode" := StrKind,
    "latencyTime" := FloatKind]

  /** `LimaTestConfiguration.SAVING_KEYS` */
  const SavingKeys: map<string, Kind> := map[
    "directory" := StrKind,
    "prefix" := StrKind,
    "suffix" := StrKind,
    "nextNumber" := IntKind,
    "fileFormat" := StrKind,
    "savingMode" := StrKind,
    "overwritePolicy" := StrKind,
    "framesPerFile" := IntKind,
    "nbframes" := IntKind]

  /** The options of a defaults section that are read: every key of `keys`,
      except `directory` when `skipDirectory` is set. */
  predicate Wanted(keys: map<string, Kind>, skipDirectory: bool, p: string) {
    p in keys && !(skipDirectory && Lower(p) == "directory")
  }

  /** Whether option `p` of `section` is present and converts. */
  predicate Readable(ini: Ini, section: string, keys: map<string, Kind>, p: string)
    requires p in keys
  {
    Get(ini, section, p).Ok? && Convert(keys[p], Get(ini, section, p).value).Some?
  }

  /** The values a defaults section gives, or `None` when a wanted option is
      missing or does not convert. */
  ghost function ReadAll(ini: Ini, section: string, keys: map<string, Kind>, skipDirectory: bool): Option<Dict> {
    if forall p :: Wanted(keys, skipDirectory, p) ==> Readable(ini, section, keys, p) then
      Some(map p | p in keys.Keys && Wanted(keys, skipDirectory, p) ::
             Convert(keys[p], Get(ini, section, p).value).value)
    else None
  }

  /** One of the `for param, t in KEYS.iteritems()` loops of
      `load_default_test`: reads and converts each wanted option, in the
      dictionary's order, and gives up at the first one that fails. */
  method ReadDefaults(ini: Ini, section: string, keys: map<string, Kind>, skipDirectory: bool)
    returns (r: Option<Dict>)
    ensures r.Some? <==> forall p :: Wanted(keys, skipDirectory, p) ==> Readable(ini, section, keys, p)
    ensures r.Some? ==> forall p :: p in r.value <==> Wanted(keys, skipDirectory, p)
    ensures r == ReadAll(ini, section, keys, skipDirectory)
  {
    var d: Dict := map[];
    var todo := keys.Keys;
    while todo != {}
      invariant todo <= keys.Keys
      invariant forall p :: Wanted(keys, skipDirectory, p) && p !in todo ==> Readable(ini, section, keys, p)
      invariant forall p :: p in d <==> Wanted(keys, skipDirectory, p) && p !in todo
      invariant forall p :: p in d ==> d[p] == Convert(keys[p], Get(ini, section, p).value).value
      decreases todo
    {
      var p :| p in todo;
      todo := todo - {p};
      if skipDirectory && Lower(p) == "directory" {
        continue;
      }
      var text := Get(ini, section, p);
      if text.Err? {
        ReadAllFails(ini, section, keys, skipDirectory, p);
        return None;
      }
      var value := Convert(keys[p], text.value);
      if value.None? {
        ReadAllFails(ini, section, keys, skipDirectory, p);
        return None;
      }
      d := d[p := value.value];
    }
    r := Some(d);
    ReadAllGives(ini, section, keys, skipDirectory, d);
  }

  /** One wanted option that cannot be read makes the whole section fail. */
  lemma ReadAllFails(ini: Ini, section: string, keys: map<string, Kind>, skipDirectory: bool, p: string)
    requires Wanted(keys, skipDirectory, p) && !Readable(ini, section, keys, p)
    ensures ReadAll(ini, section, keys, skipDirectory) == None
  {
  }

  /** A dictionary of exactly the wanted options, each read and converted,
      is what the section gives. */
  lemma ReadAllGives(ini: Ini, section: string, keys: map<string, Kind>, skipDirectory: bool, d: Dict)
    requires forall p :: Wanted(keys, skipDirectory, p) ==> Readable(ini, section, keys, p)
    requires forall p :: p in d <==> Wanted(keys, skipDirectory, p)
    requires forall p :: p in d ==>
               p in keys && Readable(ini, section, keys, p) && d[p] == Convert(keys[p], Get(ini, section, p).value).value
    ensures ReadAll(ini, section, keys, skipDirectory) == Some(d)
  {
    assert d == ReadAll(ini, section, keys, skipDirectory).value;
  }

  // ---------------------------------------------------------------------
  // Test sections

  /** `_get_tests_list`: the sections that are not defaults sections. */
  function TestsList(sections: seq<string>, defaults: set<string>): (r: seq<string>)
    ensures forall s :: s in r <==> s in sections && s !in defaults
    ensures |r| <= |sections|
  {
    if sections == [] then []
    else (if sections[0] in defaults then [] else [sections[0]]) + TestsList(sections[1..], defaults)
  }

  /** The filter keeps the file order: it distributes over concatenation. */
  lemma {:induction false} TestsListAppend(a: seq<string>, b: seq<string>, defaults: set<string>)
    ensures TestsList(a + b, defaults) == TestsList(a, defaults) + TestsList(b, defaults)
    decreases |a|
  {
    if a == [] {
      assert a + b == b;
    } else {
      assert (a + b)[0] == a[0] && (a + b)[1..] == a[1..] + b;
      TestsListAppend(a[1..], b, defaults);
    }
  }

  /** A file with no defaults section lists all its sections as tests. */
  lemma {:induction false} TestsListKeepsOthers(sections: seq<string>, defaults: set<string>)
    requires forall i :: 0 <= i < |sections| ==> sections[i] !in defaults
    ensures TestsList(sections, defaults) == sections
    decreases |sections|
  {
    if sections != [] {
      TestsListKeepsOthers(sections[1..], defaults);
    }
  }

  // ---------------------------------------------------------------------
  // Routing one test section's options

  /** The two key tables a parser routes options with. */
  datatype KeyTables = KeyTables(acq: map<string, Kind>, saving: map<string, Kind>)

  /** `ACQ_KEYS` and `SAVING_KEYS`, the tables of both revisions. */
  const ConfigKeys := KeyTables(AcqKeys, SavingKeys)

  /** What routing relies on: `type` and `repeat` are no parameter, no key
      is in both tables, and the saving `directory` is the only key that
      lower-cases to `directory`. */
  predicate Routable(keys: KeyTables) {
    "type" !in keys.acq && "type" !in keys.saving &&
    "repeat" !in keys.acq && "repeat" !in keys.saving &&
    "directory" !in keys.acq &&
    keys.acq.Keys !! keys.saving.Keys &&
    forall k :: k in keys.saving ==> (Lower(k) == "directory" <==> k == "directory")
  }

  /** What `load_test` collects from a test section. */
  datatype TestKeys = TestKeys(acq: Dict, saving: Dict, testType: Option<string>, repeat: int, baseDir: Option<string>)

  /** Whether option `key` with text `value` makes `load_test` raise: a
      parameter whose text does not convert, a `repeat` that is not an
      integer, or a key that is none of these. Only the current revision
      knows `repeat`. */
  predicate BadEntry(keys: KeyTables, key: string, value: string, withRepeat: bool) {
    if key in keys.acq then Convert(keys.acq[key], value).None?
    else if key in keys.saving then Convert(keys.saving[key], value).None?
    else if key == "type" then false
    else if key == "repeat" && withRepeat then ParseInt(value).None?
    else true
  }

  /** The exception a bad entry raises. */
  function EntryError(keys: KeyTables, test: string, key: string, withRepeat: bool): ConfigError {
    if key in keys.acq || key in keys.saving || key == "type" || (key == "repeat" && withRepeat)
    then BadValue(test, key) else InvalidTestKey(test, key)
  }

  predicate AllGood(keys: KeyTables, items: map<string, string>, withRepeat: bool) {
    forall k :: k in items ==> !BadEntry(keys, k, items[k], withRepeat)
  }

  /** The converted text of a parameter, `Null` when it does not convert. */
  function Converted(k: Kind, text: string): Value {
    match Convert(k, text) case Some(v) => v case None => Null
  }

  /** The options of `items` listed in `keys` but not in `excluded`,
      converted. */
  ghost function Collect(keys: map<string, Kind>, excluded: map<string, Kind>, items: map<string, string>): Dict {
    map k | k in items.Keys && k in keys && k !in excluded :: Converted(keys[k], items[k])
  }

  lemma CollectStep(keys: map<string, Kind>, excluded: map<string, Kind>, sub: map<string, string>,
                    key: string, value: string)
    requires key !in sub
    ensures Collect(keys, excluded, sub[key := value]) ==
            if key in keys && key !in excluded then Collect(keys, excluded, sub)[key := Converted(keys[key], value)]
            else Collect(keys, excluded, sub)
  {
  }

  /** The routed options of a section, independent of the order in which
      they are visited. */
  ghost function Classified(keys: KeyTables, items: map<string, string>, withRepeat: bool): TestKeys {
    TestKeys(
      Collect(keys.acq, map[], items),
      Collect(keys.saving, keys.acq, items),
      if "type" in items then Some(items["type"]) else None,
      if withRepeat && "repeat" in items && ParseInt(items["repeat"]).Some? then ParseInt(items["repeat"]).value else 1,
      if "directory" in items then Some(items["directory"]) else None)
  }

  /** Each acquisition option of a good section is classified as its
      converted text. */
  lemma ClassifiedAcq(keys: KeyTables, items: map<string, string>, withRepeat: bool)
    requires AllGood(keys, items, withRepeat)
    ensures var acq := Classified(keys, items, withRepeat).acq;
            acq.Keys == keys.acq.Keys * items.Keys &&
            forall k :: k in keys.acq && k in items ==> acq[k] == Convert(keys.acq[k], items[k]).value
  {
    forall k | k in keys.acq && k in items
      ensures Converted(keys.acq[k], items[k]) == Convert(keys.acq[k], items[k]).value
    {
      assert !BadEntry(keys, k, items[k], withRepeat);
    }
  }

  /** Each saving option of a good section is classified as its converted
      text. */
  lemma ClassifiedSaving(keys: KeyTables, items: map<string, string>, withRepeat: bool)
    requires Routable(keys) && AllGood(keys, items, withRepeat)
    ensures var saving := Classified(keys, items, withRepeat).saving;
            saving.Keys == keys.saving.Keys * items.Keys &&
            forall k :: k in keys.saving && k in items ==> saving[k] == Convert(keys.saving[k], items[k]).value
  {
    forall k | k in keys.saving && k in items
      ensures k !in keys.acq && Converted(keys.saving[k], items[k]) == Convert(keys.saving[k], items[k]).value
    {
      assert !BadEntry(keys, k, items[k], withRepeat);
    }
  }

  /** The body of the `load_test` loop for one option: the value goes to the
      acquisition or saving parameters (converted; the saving `directory`
      also becomes the base directory, `str` of the text being the text),
      to the type, or to the repeat count. */
  function Route(keys: KeyTables, test: string, t: TestKeys, key: string, value: string, withRepeat: bool)
    : Result<TestKeys, ConfigError>
  {
    if key in keys.acq then
      match Convert(keys.acq[key], value)
      case None => Err(BadValue(test, key))
      case Some(v) => Ok(t.(acq := t.acq[key := v]))
    else if key in keys.saving then
      match Convert(keys.saving[key], value)
      case None => Err(BadValue(test, key))
      case Some(v) =>
        Ok(t.(saving := t.saving[key := v], baseDir := if Lower(key) == "directory" then Some(value) else t.baseDir))
    else if key == "type" then Ok(t.(testType := Some(value)))
    else if key == "repeat" && withRepeat then
      match ParseInt(value)
      case None => Err(BadValue(test, key))
      case Some(n) => Ok(t.(repeat := n))
    else Err(InvalidTestKey(test, key))
  }

  /** Routing one more option extends the classification of the options
      seen so far, or raises exactly when the option is bad. */
  lemma RouteStep(keys: KeyTables, test: string, sub: map<string, string>, key: string, value: string, withRepeat: bool)
    requires Routable(keys)
    requires key !in sub && AllGood(keys, sub, withRepeat)
    ensures var next := Route(keys, test, Classified(keys, sub, withRepeat), key, value, withRepeat);
            (next.Ok? <==> !BadEntry(keys, key, value, withRepeat)) &&
            (next.Err? ==> next.error == EntryError(keys, test, key, withRepeat)) &&
            (next.Ok? ==> AllGood(keys, sub[key := value], withRepeat) &&
                          next.value == Classified(keys, sub[key := value], withRepeat))
  {
    if !BadEntry(keys, key, value, withRepeat) {
      GoodExtends(keys, sub, key, value, withRepeat);
      var sub' := sub[key := value];
      var t, t' := Classified(keys, sub, withRepeat), Classified(keys, sub', withRepeat);
      CollectStep(keys.acq, map[], sub, key, value);
      CollectStep(keys.saving, keys.acq, sub, key, value);
      if key in keys.acq {
        assert t'.saving == t.saving && t'.baseDir == t.baseDir;
      } else if key in keys.saving {
        assert t'.acq == t.acq;
      } else {
        assert t'.acq == t.acq && t'.saving == t.saving && t'.baseDir == t.baseDir;
      }
    }
  }

  lemma GoodExtends(keys: KeyTables, sub: map<string, string>, key: string, value: string, withRepeat: bool)
    requires key !in sub && AllGood(keys, sub, withRepeat) && !BadEntry(keys, key, value, withRepeat)
    ensures AllGood(keys, sub[key := value], withRepeat)
  {
    var sub' := sub[key := value];
    forall k | k in sub' ensures !BadEntry(keys, k, sub'[k], withRepeat) {
      if k != key { assert sub'[k] == sub[k]; }
    }
  }

  /** The tables of the configuration helper meet what routing relies on. */
  lemma ConfigKeysRoutable()
    ensures Routable(ConfigKeys)
  {
    KeyTablesSeparate();
    forall k | k in SavingKeys
      ensures Lower(k) == "directory" <==> k == "directory"
    {
      DirectoryKey(k);
    }
  }

  /** The special keys are no parameter and no key is in both tables. */
  lemma KeyTablesSeparate()
    ensures "type" !in AcqKeys && "type" !in SavingKeys
    ensures "repeat" !in AcqKeys && "repeat" !in SavingKeys
    ensures "directory" !in AcqKeys
    ensures AcqKeys.Keys !! SavingKeys.Keys
  {
  }

  lemma DirectoryKey(k: string)
    requires k in SavingKeys
    ensures Lower(k) == "directory" <==> k == "directory"
  {
    LowerDirectory();
    if Lower(k) == "directory" {
      assert |k| == 9;
      SavingKeyLengths(k);
    }
  }

  lemma LowerDirectory()
    ensures Lower("directory") == "directory"
  {
    var d := "directory";
    assert forall i :: 0 <= i < |d| ==> 'a' <= d[i] <= 'z';
  }

  /** `directory` is the only saving key of nine characters. */
  lemma SavingKeyLengths(k: string)
    requires k in SavingKeys
    ensures |k| == 9 ==> k == "directory"
  {
    assert SavingKeys.Keys == {"directory", "prefix", "suffix", "nextNumber", "fileFormat", "savingMode",
                               "overwritePolicy", "framesPerFile", "nbframes"};
  }

  /** The `for key, value in t_dict.iteritems()` loop of `load_test`,
      visiting the options in the dictionary's order; the first bad entry
      raises. */
  method ClassifyTestKeys(keys: KeyTables, test: string, items: map<string, string>, withRepeat: bool)
    returns (r: Result<TestKeys, ConfigError>)
    requires Routable(keys)
    ensures r.Ok? <==> AllGood(keys, items, withRepeat)
    ensures r.Ok? ==> r.value == Classified(keys, items, withRepeat)
    ensures r.Err? ==> exists k :: k in items && BadEntry(keys, k, items[k], withRepeat) &&
                                 r.error == EntryError(keys, test, k, withRepeat)
  {
    var t := TestKeys(map[], map[], None, 1, None);
    var todo := items.Keys;
    ghost var seen: map<string, string> := map[];
    while todo != {}
      invariant todo <= items.Keys
      invariant seen.Keys == items.Keys - todo
      invariant forall k :: k in seen ==> seen[k] == items[k]
      invariant AllGood(keys, seen, withRepeat) && t == Classified(keys, seen, withRepeat)
      decreases todo
    {
      var key :| key in todo;
      RouteStep(keys, test, seen, key, items[key], withRepeat);
      var next := Route(keys, test, t, key, items[key], withRepeat);
      if next.Err? {
        return Err(next.error);
      }
      t := next.value;
      seen := seen[key := items[key]];
      todo := todo - {key};
    }
    assert seen == items;
    r := Ok(t);
  }

  // ---------------------------------------------------------------------
  // Loading every test section

  /** The loaded configurations, when every load gives one. */
  function Present<T>(xs: seq<Option<T>>): (r: Option<seq<T>>)
  {
    if xs == [] then Some([])
    else if xs[0].None? then None
    else match Present(xs[1..])
      case None => None
      case Some(rest) => Some([xs[0].value] + rest)
  }

  /** `Present` gives the values in order exactly when every load
      gives one. */
  lemma {:induction false} PresentMeans<T>(xs: seq<Option<T>>)
    ensures Present(xs).Some? <==> forall i :: 0 <= i < |xs| ==> xs[i].Some?
    ensures Present(xs).Some? ==>
              |Present(xs).value| == |xs| && forall i :: 0 <= i < |xs| ==> Some(Present(xs).value[i]) == xs[i]
    decreases |xs|
  {
    if xs != [] {
      PresentMeans(xs[1..]);
      if xs[0].Some? && Present(xs[1..]).Some? {
        var v := Present(xs).value;
        assert forall i :: 1 <= i < |xs| ==> v[i] == Present(xs[1..]).value[i - 1];
      }
      assert forall i :: 1 <= i < |xs| ==> xs[i] == xs[1..][i - 1];
    }
  }

  lemma {:induction false} PresentStep<T>(xs: seq<Option<T>>, x: Option<T>)
    ensures Present(xs + [x]) ==
              if Present(xs).Some? && x.Some? then Some(Present(xs).value + [x.value]) else None
    decreases |xs|
  {
    if xs == [] {
      assert xs + [x] == [x] && [x][1..] == [];
      if x.Some? {
        assert Present([x]) == Some([x.value] + []);
        assert [x.value] + [] == [] + [x.value];
      }
    } else {
      assert (xs + [x])[0] == xs[0] && (xs + [x])[1..] == xs[1..] + [x];
      PresentStep(xs[1..], x);
      if xs[0].Some? && Present(xs[1..]).Some? && x.Some? {
        var rest := Present(xs[1..]).value;
        assert [xs[0].value] + (rest + [x.value]) == ([xs[0].value] + rest) + [x.value];
      }
    }
  }

  /** A load that gives nothing spoils every longer list. */
  lemma {:induction false} PresentPrefix<T>(xs: seq<Option<T>>, ys: seq<Option<T>>)
    requires Present(xs).None?
    ensures Present(xs + ys).None?
    decreases |xs|
  {
    assert xs != [];
    assert (xs + ys)[0] == xs[0] && (xs + ys)[1..] == xs[1..] + ys;
    if xs[0].Some? {
      PresentPrefix(xs[1..], ys);
    }
  }

  /** One more entry extends the configurations of a prefix. */
  lemma PresentNext<T>(xs: seq<Option<T>>, i: nat)
    requires i < |xs|
    ensures Present(xs[..i + 1]) ==
              if Present(xs[..i]).Some? && xs[i].Some? then Some(Present(xs[..i]).value + [xs[i].value]) else None
  {
    PresentStep(xs[..i], xs[i]);
    assert xs[..i + 1] == xs[..i] + [xs[i]];
  }

  /** An entry that gives nothing leaves no configurations at all. */
  lemma PresentStops<T>(xs: seq<Option<T>>, i: nat)
    requires i < |xs| && Present(xs[..i + 1]).None?
    ensures Present(xs).None?
  {
    PresentPrefix(xs[..i + 1], xs[i + 1..]);
    assert xs[..i + 1] + xs[i + 1..] == xs;
  }

  lemma PresentWhole<T>(xs: seq<Option<T>>)
    ensures Present(xs[..|xs|]) == Present(xs)
  {
    assert xs[..|xs|] == xs;
  }
}
