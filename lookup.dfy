/** The package helpers: dictionary lookups by value and by upper-cased key,
    the `_<name>` table lookup on a detector object, the date stamp, the test
    folder path and its creation, and the ADXV viewer command. */
module Lookup {
  import opened Common

  // ---------------------------------------------------------------------
  // Dictionary lookups

  /** A Python dictionary whose iteration order matters: `keys()` and
      `values()` list the entries in the same order. */
  type OrderedDict<K, V> = seq<(K, V)>

  function Keys<K, V>(d: OrderedDict<K, V>): (ks: seq<K>)
    ensures |ks| == |d| && forall i :: 0 <= i < |d| ==> ks[i] == d[i].0
  {
    if d == [] then [] else [d[0].0] + Keys(d[1..])
  }

  function Values<K, V>(d: OrderedDict<K, V>): (vs: seq<V>)
    ensures |vs| == |d| && forall i :: 0 <= i < |d| ==> vs[i] == d[i].1
  {
    if d == [] then [] else [d[0].1] + Values(d[1..])
  }

  /** `xs.index(x)`, with `None` for the `ValueError` case. */
  function IndexOf<T(==)>(xs: seq<T>, x: T): (r: Option<nat>)
    ensures r.None? <==> x !in xs
    ensures r.Some? ==> r.value < |xs| && xs[r.value] == x && x !in xs[..r.value]
  {
    if xs == [] then None
    else if xs[0] == x then Some(0)
    else match IndexOf(xs[1..], x)
      case None => None
      case Some(i) =>
        assert xs[..i + 1] == [xs[0]] + xs[1..][..i];
        Some(i + 1)
  }

  /** `_get_dict_key(d, value)`: the key of the first entry holding `value`. */
  function GetDictKey<K, V(==)>(d: OrderedDict<K, V>, value: V): (r: Option<K>)
    ensures r.None? <==> forall i :: 0 <= i < |d| ==> d[i].1 != value
    ensures r.Some? ==> exists i :: 0 <= i < |d| && d[i] == (r.value, value) &&
                                    forall j :: 0 <= j < i ==> d[j].1 != value
  {
    match IndexOf(Values(d), value)
    case None => None
    case Some(i) =>
      assert forall j :: 0 <= j < i ==> Values(d)[..i][j] == d[j].1;
      Some(Keys(d)[i])
  }

  /** `_get_dict_value(d, k)`: the entry under the upper-cased key. */
  function GetDictValue<V>(d: map<string, V>, k: string): (r: Option<V>)
    ensures r.Some? <==> Upper(k) in d
    ensures r.Some? ==> r.value == d[Upper(k)]
  {
    if Upper(k) in d then Some(d[Upper(k)]) else None
  }

  /** The lookup does not depend on the case of the key it is given. */
  lemma GetDictValueIgnoresCase<V>(d: map<string, V>, k: string)
    ensures GetDictValue(d, k) == GetDictValue(d, Upper(k))
  {
    UpperIdempotent(k);
  }

  /** `get_dict(obj, name)`: the attribute `_<name>` of an object, given as
      the map from the object's attribute names to their values. */
  function GetDict<T>(attrs: map<string, T>, name: string): (r: Option<T>)
    ensures r.Some? <==> "_" + name in attrs
    ensures r.Some? ==> r.value == attrs["_" + name]
  {
    var attr := "_" + name;
    if attr in attrs then Some(attrs[attr]) else None
  }

  // ---------------------------------------------------------------------
  // Date stamp `%Y%m%d_%H%M`

  /** The fields of `datetime.now()` the stamp uses. Python 2's `strftime`
      refuses years before 1900. */
  datatype DateTime = DateTime(year: nat, month: nat, day: nat, hour: nat, minute: nat) {
    predicate Valid() {
      1900 <= year <= 9999 && 1 <= month <= 12 && 1 <= day <= 31 && hour < 24 && minute < 60
    }
  }

  /** The last `width` decimal digits of `n`, most significant first:
      `n` written with `width` digits when it has no more. */
  function Digits(n: nat, width: nat): (s: string)
    ensures |s| == width
  {
    if width == 0 then "" else Digits(n / 10, width - 1) + [DigitChar(n % 10)]
  }

  lemma {:induction false} DigitsAreDigits(n: nat, width: nat)
    ensures AllDigits(Digits(n, width))
  {
    if width > 0 {
      DigitsAreDigits(n / 10, width - 1);
      var s := Digits(n, width);
      assert forall i :: 0 <= i < width - 1 ==> s[i] == Digits(n / 10, width - 1)[i];
    }
  }

  function Pow10(k: nat): (p: nat)
    ensures p >= 1
  {
    if k == 0 then 1 else 10 * Pow10(k - 1)
  }

  /** The digits read back give `n` when `n` fits in `width` digits. */
  lemma {:induction false} DigitsValueOfDigits(n: nat, width: nat)
    requires n < Pow10(width)
    ensures AllDigits(Digits(n, width)) && DigitsValue(Digits(n, width)) == n
  {
    DigitsAreDigits(n, width);
    if width > 0 {
      var s := Digits(n, width);
      assert s[..width - 1] == Digits(n / 10, width - 1);
      DigitsAreDigits(n / 10, width - 1);
      DigitsValueOfDigits(n / 10, width - 1);
    }
  }

  /** `_str_date_now()` formatted from the given clock reading:
      `strftime("%Y%m%d_%H%M")`. */
  function StrDateNow(now: DateTime): (s: string)
    requires now.Valid()
    ensures |s| == 13
  {
    Digits(now.year, 4) + Digits(now.month, 2) + Digits(now.day, 2) + "_" +
    Digits(now.hour, 2) + Digits(now.minute, 2)
  }

  /** Eight digits, an underscore, four digits. */
  predicate IsStamp(s: string) {
    |s| == 13 && AllDigits(s[..8]) && s[8] == '_' && AllDigits(s[9..])
  }

  /** Reads the clock fields back out of a stamp. */
  function ParseStamp(s: string): DateTime
    requires IsStamp(s)
  {
    DateTime(DigitsValue(s[0..4]), DigitsValue(s[4..6]), DigitsValue(s[6..8]),
             DigitsValue(s[9..11]), DigitsValue(s[11..13]))
  }

  /** The stamp has the shape of a stamp and determines the minute it was
      taken in. */
  lemma StampRoundTrip(now: DateTime)
    requires now.Valid()
    ensures IsStamp(StrDateNow(now)) && ParseStamp(StrDateNow(now)) == now
  {
    var y, mo, d := Digits(now.year, 4), Digits(now.month, 2), Digits(now.day, 2);
    var h, mi := Digits(now.hour, 2), Digits(now.minute, 2);
    var date, time := y + mo + d, h + mi;
    var s := StrDateNow(now);
    assert s == date + "_" + time;
    DigitsAreDigits(now.year, 4);
    DigitsAreDigits(now.month, 2);
    DigitsAreDigits(now.day, 2);
    DigitsAreDigits(now.hour, 2);
    DigitsAreDigits(now.minute, 2);
    assert AllDigits(date) && AllDigits(time);
    StampSlices(date, time);
    StampSlices3(s, y, mo, d);
    assert s[0..4] == y && s[4..6] == mo && s[6..8] == d;
    assert s[9..11] == h && s[11..13] == mi;
    assert Pow10(2) == 100 && Pow10(4) == 10000;
    DigitsValueOfDigits(now.year, 4);
    DigitsValueOfDigits(now.month, 2);
    DigitsValueOfDigits(now.day, 2);
    DigitsValueOfDigits(now.hour, 2);
    DigitsValueOfDigits(now.minute, 2);
  }

  lemma StampSlices(date: string, time: string)
    requires |date| == 8 && |time| == 4
    ensures var s := date + "_" + time;
            s[..8] == date && s[8] == '_' && s[9..] == time &&
            s[9..11] == time[..2] && s[11..13] == time[2..]
  {
  }

  lemma StampSlices3(s: string, y: string, mo: string, d: string)
    requires |y| == 4 && |mo| == 2 && |d| == 2
    requires |s| >= 8 && s[..8] == y + mo + d
    ensures s[0..4] == y && s[4..6] == mo && s[6..8] == d
  {
    assert s[0..4] == (y + mo + d)[0..4];
    assert s[4..6] == (y + mo + d)[4..6];
    assert s[6..8] == (y + mo + d)[6..8];
  }

  // ---------------------------------------------------------------------
  // Test folders

  const TestRoot := "tmp/LimaTestSuite"

  /** The path `create_test_folder` builds from the test name, the base
      directory (`None` when the test sets none) and the date stamp. */
  function TestFolderPath(name: string, baseDir: Option<string>, stamp: string): string {
    var testPath := JoinPath(TestRoot, name + "_" + stamp);
    if baseDir.Some? && baseDir.value != "" then JoinPath(baseDir.value, testPath)
    else JoinPath("/", testPath)
  }

  /** `<base_dir>/tmp/LimaTestSuite/<name>_<stamp>` when `base_dir` is
      truthy, `/tmp/LimaTestSuite/<name>_<stamp>` otherwise (for a test name
      that is not itself an absolute path). */
  lemma TestFolderPathShape(name: string, baseDir: Option<string>, stamp: string)
    requires |name| == 0 || name[0] != '/'
    ensures var tail := TestRoot + "/" + name + "_" + stamp;
            TestFolderPath(name, baseDir, stamp) ==
              if baseDir.Some? && baseDir.value != "" then JoinPath(baseDir.value, tail) else "/" + tail
  {
    var folder := name + "_" + stamp;
    assert |folder| == 0 || folder[0] != '/' by {
      if |name| == 0 { assert folder[0] == '_'; } else { assert folder[0] == name[0]; }
    }
    assert JoinPath(TestRoot, folder) == TestRoot + "/" + folder;
    assert TestRoot + "/" + folder == TestRoot + "/" + name + "_" + stamp;
  }

  /** Whatever the base directory, the last component is `<name>_<stamp>`. */
  lemma TestFolderPathEndsWithFolder(name: string, baseDir: Option<string>, stamp: string)
    ensures var p, folder := TestFolderPath(name, baseDir, stamp), name + "_" + stamp;
            |p| >= |folder| && p[|p| - |folder|..] == folder
  {
    var folder := name + "_" + stamp;
    var testPath := JoinPath(TestRoot, folder);
    var p := TestFolderPath(name, baseDir, stamp);
    assert testPath[|testPath| - |folder|..] == folder;
    assert p[|p| - |testPath|..] == testPath;
    assert p[|p| - |folder|..] == testPath[|testPath| - |folder|..];
  }

  /** The file system, as the set of directories that exist. */
  class FileSystem {
    var dirs: set<string>

    constructor (dirs: set<string>)
      ensures this.dirs == dirs
    {
      this.dirs := dirs;
    }

    /** `create_test_folder(name, base_dir)`, where `stamp` is what
        `_str_date_now()` returns at that moment (`StrDateNow` of the clock
        reading): the directory is created only if it does not exist yet. */
    method CreateTestFolder(name: string, baseDir: Option<string>, stamp: string) returns (path: string)
      modifies this
      ensures path == TestFolderPath(name, baseDir, stamp)
      ensures dirs == old(dirs) + {path}
      ensures path in old(dirs) ==> dirs == old(dirs)
    {
      path := TestFolderPath(name, baseDir, stamp);
      if path !in dirs {
        dirs := dirs + {path};
      }
    }
  }

  // ---------------------------------------------------------------------
  // ADXV viewer notifications

  const AdxvDefaultPort := 8100

  /** The line `send_image_name` writes to the ADXV socket. */
  function AdxvCommand(filename: string): string {
    "load_image " + filename + "\n"
  }

  /** What the viewer reads back out of one command line. */
  function AdxvFilename(line: string): Option<string> {
    if |line| >= 12 && line[..11] == "load_image " && line[|line| - 1] == '\n'
    then Some(line[11..|line| - 1]) else None
  }

  lemma AdxvRoundTrip(filename: string)
    ensures AdxvFilename(AdxvCommand(filename)) == Some(filename)
  {
    var line := AdxvCommand(filename);
    assert line[..11] == "load_image ";
    assert line[11..|line| - 1] == filename;
  }

  /** The socket to the viewer, as the lines sent through it. A failed
      connect is only printed by the source, so it is not modelled. */
  class AdxvSocket {
    const host: string
    const port: int
    var sent: seq<string>

    constructor (host: string, port: int := AdxvDefaultPort)
      ensures this.host == host && this.port == port && sent == []
    {
      this.host := host;
      this.port := port;
      sent := [];
    }

    method SendImageName(filename: string)
      modifies this
      ensures sent == old(sent) + [AdxvCommand(filename)]
    {
      sent := sent + [AdxvCommand(filename)];
    }
  }
}
