# LimaTestSuite acquisition monitor — a Dafny model

LimaTestSuite runs acquisition tests against detectors driven by the Lima
library. A configuration file lists a default detector setup and a number of
named tests. Each test becomes a unittest case that:

1. writes its acquisition and saving parameters into a Lima control object;
2. starts an acquisition;
3. watches the image counters and the acquisition status until the last image
   is saved and the detector is Ready, or fails with a message.

The repository holds three revisions of this machinery, and the model covers
all three.

- **Current package** (`LimaTestSuite/`):
  - a `LimaDetector` base with two backends: the Lima Core control object
    (`LimaCoreDetector`) and a Tango device server (`LimaTangoDetector`);
  - the monitor loop inside the test case, `LimaCCDAcquisitionTest.runTest`;
  - the configuration parser, which creates one dated folder per test;
  - the suite dispatch in `__main__.py`.
- **Previous package revision**: a `LimaDetector` in
  `LimaTestSuite/LimaCCDDetector.py` whose `start(abort)` holds the monitor.
  The test case in `LimaTestSuite/LimaCCDTestCase.py` turns its
  `RuntimeError` into a failure.
- **Root scripts**: `LimaCCDDetector.py`, `LimaCCDTestCase.py`,
  `LimaConfigHelper.py`, `__init__.py` and `run_test.py`.
  - Their `start()` follows the saved-image counter and sends each new file
    name to an ADXV viewer over a socket.
  - Their parser keeps missing parameters as `None`.
  - The root `LimaCCDTestCase.py` imports `LimaDetector` from
    `LimaTestSuite.LimaCCDDetector` (line 2), but it calls it as
    `LimaDetector(self.det_name, host, port, adxv_host)` (line 15). That call
    fits only the root `LimaCCDDetector.py` constructor (line 54). The package
    revision's constructor takes a single `config` (LimaTestSuite/LimaCCDDetector.py:58).
    `LegacyTestCase` is therefore modelled against the root detector,
    `LegacyDetector`, which is the one the call can reach without a
    `TypeError`.

## The model

**The Lima library.** `LimaCore.CtControl` stands for Lima's control object.
- It holds the acquisition and saving parameter structures.
- It holds a set of commands that raise.
- It holds a *script* of status snapshots. Each `getStatus()` consumes the next
  snapshot: acquisition status, last image acquired and last image saved.
- It records every observable interaction in a log: commands, status reads,
  sleeps and parameter writes.

**How the monitors are stated.** Each monitor revision has a pure
specification over the script and a method that runs the loop against the
control object.
- The specifications are `LimaTestCase.RunSpec`, `CcdDetector.StartSpec` and
  `LegacyDetector.StartSpec`.
- Each method's `ensures` ties its outcome, the new log and the unread
  snapshots to the specification.
- The properties the source promises (what a passing run has seen, which
  commands are issued, that snapshots are read in order) are lemmas about
  the specifications.
- A finite script can run out before the `while True` loop ends. The
  outcome `Exhausted` stands for that.

**Configuration.** The configuration file is the parsed `Ini` value. Test
configurations are values (`Config.Settings`, `LegacyConfig.LegacySettings`).
The parsers are classes whose methods are specified by pure functions of the
file.

**Modules**

| module | models |
|---|---|
| `Common` | `Option`/`Result`, the dynamic `Value` type, `upper`/`lower`, `int` and `str` of integers, `zfill`, `os.path.join` |
| `LimaCore` | the Lima control object, its statuses, commands and event log |
| `Lookup` | the package helpers of both `__init__.py` files and the ADXV socket |
| `Translate` | `_update_config_from_dict` and the lookup tables of each detector |
| `Monitor` | outcomes and runs shared by every monitor; the bounded "settle" loop |
| `CoreDetector`, `TangoDetector` | the two backends of `LimaTestSuite/LimaDetector.py` and `LimaTestSuite/LimaTangoDetector.py` |
| `LimaTestCase` | the current test case and its monitor loop |
| `CcdDetector`, `CcdTestCase` | the previous package revision |
| `LegacyDetector`, `LegacyTestCase` | the root scripts' detector and test case |
| `ConfigSource` | what both configuration helpers share |
| `Config`, `LegacyConfig` | the two configuration helpers |
| `Suite` | test dispatch and result counting of `__main__.py` and `run_test.py` |

## Model

| member | source | states |
|---|---|---|
| Common.Upper | LimaTestSuite/LimaTangoDetector.py:35 | `str.upper` keeps the length and upper-cases each character |
| Common.Lower | LimaTestSuite/__main__.py:18 | `str.lower` keeps the length and lower-cases each character |
| Common.UpperIdempotent | LimaTestSuite/__init__.py:45 | upper-casing twice is upper-casing once, so a key already upper-case is found as is |
| Common.LowerIdempotent | LimaTestSuite/__main__.py:18-22 | lower-casing twice is lower-casing once |
| Common.NatToString | LimaTestSuite/LimaCCDDetector.py:322-323 | the decimal text of a status code is non-empty, all digits, one digit exactly below ten |
| Common.DigitsValueOfNatToString | LimaTestSuite/LimaCCDDetector.py:322-323 | the decimal text of `n` reads back as `n` |
| Common.IntToString | LimaCCDDetector.py:278-280 | `str(i)` is non-empty, all digits for `i >= 0`, a minus sign and digits otherwise |
| Common.ParseInt | LimaConfigHelper.py:18 | `int(text)` succeeds exactly on an optional sign followed by one or more digits, and is negative only with a minus sign; `Common.IntRoundTrip` proves `int(str(i)) == i` |
| Common.IntRoundTrip | LimaTestSuite/LimaConfigHelper.py:191 | `int(str(i)) == i` for every integer |
| Common.Zeros | LimaCCDDetector.py:280 | a run of `n` zero characters |
| Common.ZFill | LimaCCDDetector.py:280 | `zfill(width)` yields at least `width` characters and never shortens the text |
| Common.JoinPath | LimaTestSuite/__init__.py:59-63 | `os.path.join(a, b)` is `b` when `b` is absolute, and otherwise ends with `b` |
| Common.IsFloatText | LimaTestSuite/LimaConfigHelper.py:9-15 | the texts `float` accepts: an optional sign, then digits with at most one point and at least one digit and an optional exponent, or `inf`, `infinity`, `nan` in any case (pinned down by `Common.SpecialFloats` and `Common.NotSpecialFloats`) |
| LimaCore.PolledAppend | LimaTestSuite/LimaDetector.py:263-277 | the snapshots read by two event sequences are those of the first, then those of the second |
| LimaCore.StatusCode | LimaTestSuite/LimaCCDDetector.py:322-323 | the integer `%d` prints for a status: Ready 0, Running 1, Fault 2, Config 3, the declaration order of `Core.AcqStatus` |
| LimaCore.CountAppend | LimaTestSuite/LimaCCDDetector.py:277-281 | occurrences of an event add up over concatenated logs |
| LimaCore.CountAbsent | LimaTestSuite/LimaCCDDetector.py:277-281 | an event occurs zero times exactly when it is absent |
| LimaCore.CtControl.constructor | LimaTestSuite/LimaDetector.py:178-219 | a control object with the given parameter structures, script and failing commands, and an empty log |
| LimaCore.CtControl.Issue | LimaTestSuite/LimaDetector.py:246-253 | a command is logged and succeeds exactly when it is not a failing one |
| LimaCore.CtControl.PrepareAcq | LimaTestSuite/LimaDetector.py:246-247 | `prepareAcq` is logged; it raises exactly when it is a failing command |
| LimaCore.CtControl.StartAcq | LimaTestSuite/LimaDetector.py:249-250 | `startAcq` is logged; it raises exactly when it is a failing command |
| LimaCore.CtControl.StopAcq | LimaTestSuite/LimaDetector.py:252-253 | `stopAcq` is logged; it raises exactly when it is a failing command |
| LimaCore.CtControl.Status | LimaTestSuite/LimaDetector.py:275-277 | a status query is logged; it raises exactly when it is a failing command |
| LimaCore.CtControl.GetStatus | LimaTestSuite/LimaDetector.py:263-273 | `getStatus()` returns the next scripted snapshot, consumes it and logs the read; an empty script gives nothing and changes nothing |
| LimaCore.CtControl.Sleep | LimaTestSuite/LimaTestCase.py:80 | `time.sleep` is logged with its duration |
| LimaCore.CtControl.AcqNbFrames | LimaTestSuite/LimaDetector.py:261 | `getAcqNbFrames()` is the controller's `acqNbFrames` parameter, found exactly when that parameter is an integer |
| LimaCore.CtControl.GetPars | LimaTestSuite/LimaDetector.py:233 | `getPars()` returns the current acquisition parameters |
| LimaCore.CtControl.SetPars | LimaTestSuite/LimaDetector.py:234-236 | `setPars(p)` replaces the acquisition parameters and is logged |
| LimaCore.CtControl.GetParameters | LimaTestSuite/LimaDetector.py:238 | `getParameters()` returns the current saving parameters |
| LimaCore.CtControl.SetParameters | LimaTestSuite/LimaDetector.py:239-244 | `setParameters(p)` replaces the saving parameters and is logged |
| Lookup.Keys | __init__.py:30 | `keys()` lists the entries' keys in iteration order |
| Lookup.Values | __init__.py:27 | `values()` lists the entries' values in the same order |
| Lookup.IndexOf | __init__.py:27-29 | `list.index` finds the first position of a value; a `ValueError` exactly when it is absent |
| Lookup.GetDictKey | __init__.py:25-30 | `_get_dict_key` returns the key of the first entry holding the value, and `None` exactly when no entry holds it |
| Lookup.GetDictValue | LimaTestSuite/__init__.py:43-48 | `_get_dict_value(d, k)` is `d[k.upper()]`, and `None` exactly when that key is missing |
| Lookup.GetDictValueIgnoresCase | __init__.py:33-38 | the lookup gives the same answer for a key and its upper-case form |
| Lookup.GetDict | LimaTestSuite/__init__.py:71-84 | `get_dict(obj, name)` is the attribute `_<name>`, and `None` exactly when there is no such attribute |
| Lookup.Digits | LimaTestSuite/__init__.py:53 | a zero-padded field of the date stamp has its fixed width |
| Lookup.DigitsAreDigits | LimaTestSuite/__init__.py:53 | a zero-padded field is all digits |
| Lookup.DigitsValueOfDigits | LimaTestSuite/__init__.py:53 | a number below `10^width` reads back from its zero-padded field |
| Lookup.StrDateNow | LimaTestSuite/__init__.py:51-53 | `strftime("%Y%m%d_%H%M")` is thirteen characters long |
| Lookup.StampRoundTrip | __init__.py:41-44 | the date stamp has the `YYYYmmdd_HHMM` shape and reads back as the same date and minute |
| Lookup.ParseStamp | __init__.py:41-44 | reads the year, month, day, hour and minute back out of a `%Y%m%d_%H%M` stamp; `Lookup.StampRoundTrip` proves it inverts `StrDateNow` |
| Lookup.TestFolderPath | LimaTestSuite/__init__.py:56-63 | the path `create_test_folder` builds |
| Lookup.TestFolderPathShape | LimaTestSuite/__init__.py:57-63 | the folder is `<base_dir>/tmp/LimaTestSuite/<name>_<stamp>` with a base directory, and under `/` without one |
| Lookup.TestFolderPathEndsWithFolder | LimaTestSuite/__init__.py:58-59 | every test folder path ends with `<name>_<stamp>` |
| Lookup.FileSystem.CreateTestFolder | LimaTestSuite/__init__.py:56-68 | returns that path, and afterwards the directory exists; an existing directory is left as it was |
| Lookup.AdxvRoundTrip | __init__.py:102-103 | the viewer reads back exactly the file name from each `load_image` line |
| Lookup.AdxvCommand | __init__.py:102-103 | the line sent to ADXV is `load_image `, the file name and a newline; `Lookup.AdxvRoundTrip` proves the name can be read back from it |
| Lookup.AdxvSocket.constructor | __init__.py:86-95 | a socket to the host, on port 8100 unless another is given, that has sent nothing |
| Lookup.AdxvSocket.SendImageName | __init__.py:102-103 | sends one `load_image <filename>` line and nothing else |
| Translate.TranslateValue | LimaTestSuite/LimaDetector.py:90-106 | a key with no table, or an empty one, keeps its value; otherwise the value must be a string whose upper case names a table entry, and becomes that constant |
| Translate.TranslateIgnoresCase | LimaTestSuite/LimaDetector.py:98 | the table lookup does not depend on the case of the configured string |
| Translate.TranslatedIsTableConstant | LimaTestSuite/LimaDetector.py:97-104 | a translated table value is one of the table's constants |
| Translate.UpdatedKeepsOthers | LimaTestSuite/LimaDetector.py:90-106 | a successful update keeps every parameter the configuration does not name, sets every one it names, and adds nothing else |
| Translate.Updated | LimaTestSuite/LimaDetector.py:90-106 | the parameter structure after every configuration entry has been translated and set, or `None` when one cannot be translated; `Translate.UpdatedKeepsOthers` proves it keeps every other parameter |
| Translate.UpdateConfigFromDict | LimaTestSuite/LimaDetector.py:90-106 | the loop succeeds exactly when every entry translates, and then the parameters are exactly those of the update, whatever the order in which the keys are visited |
| Translate.TrailingSpaceFormatKeyIsNotTranslated | LimaTestSuite/LimaDetector.py:125 | the `'fileFormat '` key (with a trailing space) names no table, so its value is passed through untranslated |
| Translate.FitsSpelledFitz | LimaTestSuite/LimaDetector.py:44-71 | the current file format table accepts `fitz` for FITS and rejects `FITS` |
| Translate.FileFormatFound | LimaTestSuite/LimaDetector.py:44-71 | the `fileFormat` key finds the file format table of the current revision |
| Translate.FitsMissing | LimaTestSuite/LimaDetector.py:44-71 | that table maps `FITZ` to FITS and has no `FITS` key |
| Translate.FormatNames | LimaTestSuite/LimaDetector.py:44-71 | the upper-case forms of the two spellings of FITS |
| Monitor.ReasonText | LimaTestSuite/LimaCCDDetector.py:284-287 | the two failure texts of the monitors; a status failure quotes the status code as `[S<code>]` |
| Monitor.PollAll | LimaTestSuite/LimaTestCase.py:58-60 | reading the rest of the script logs one status read per snapshot, in order |
| Monitor.Settle | LimaTestSuite/LimaTestCase.py:97-101 | the bounded wait for Ready never reads more snapshots than it has |
| Monitor.SettleBound | LimaTestSuite/LimaTestCase.py:97-101 | the wait reads at most `n` snapshots and leaves the rest unread |
| Monitor.SettlePolls | LimaTestSuite/LimaTestCase.py:98 | the snapshots the wait reads are the first ones, in order |
| Monitor.SettleStep | LimaTestSuite/LimaTestCase.py:97-101 | a turn of the wait that is not Ready puts its snapshot before those the rest of the wait reads |
| Monitor.SettleQuiet | LimaTestSuite/LimaTestCase.py:97-101 | the wait only reads statuses and sleeps one second after each one that is not Ready |
| Monitor.SettleTimesOut | LimaTestSuite/LimaCCDDetector.py:314-318 | with no Ready among the first `n` snapshots the wait reads exactly `n` and does not run out |
| Monitor.SettleStops | LimaTestSuite/LimaCCDDetector.py:314-318 | the wait stops short of `n` reads only at a Ready snapshot, or when the script runs out |
| Monitor.PolledPollAll | LimaTestSuite/LimaTestCase.py:58-60 | reading the rest of the script records every snapshot |
| Monitor.ThenReads | LimaTestSuite/LimaTestCase.py:57-105 | reading a prefix in order and then the rest in order reads the whole script in order |
| Monitor.PolledNone | LimaTestSuite/LimaTestCase.py:67-71 | commands and sleeps record no snapshot |
| CoreDetector.AcqParameters | LimaTestSuite/LimaDetector.py:108-118 | `set_acq_parameters` sets exactly the five acquisition keys to the given values |
| CoreDetector.SavingParameters | LimaTestSuite/LimaDetector.py:120-130 | `set_saving_parameters` sets six saving keys; the format goes under `'fileFormat '`, never under `fileFormat` |
| CoreDetector.WriteConfig | LimaTestSuite/LimaDetector.py:231-244 | `write_config_hw` writes the acquisition parameters and then the saving parameters; it stops before writing when a translation fails; unnamed parameters keep their values |
| CoreDetector.LimaCoreDetector.constructor | LimaTestSuite/LimaDetector.py:40-87 | a detector on the control object, with the current tables and the test's two dictionaries |
| CoreDetector.LimaCoreDetector.WriteConfigHw | LimaTestSuite/LimaDetector.py:231-244 | the control object's parameters and log change exactly as `WriteConfig` says |
| CoreDetector.LimaCoreDetector.SetAcqParameters | LimaTestSuite/LimaDetector.py:108-118 | the acquisition dictionary gains the five entries, `latency`, `trigger` and `acq_mode` defaulting to 0, `Internal` and `single`, and the configuration is written again |
| CoreDetector.LimaCoreDetector.SetSavingParameters | LimaTestSuite/LimaDetector.py:120-130 | the saving dictionary gains the six entries, `mode` and `overwrite` defaulting to `auto_frame` and `overwrite`, and the configuration is written again |
| CoreDetector.LimaCoreDetector.Frames | LimaTestSuite/LimaDetector.py:259-261 | `frames` is one less than the configured number of frames, and is defined exactly when that number is an integer |
| CoreDetector.LimaCoreDetector.PrepareAcq | LimaTestSuite/LimaDetector.py:246-247 | one `prepareAcq`, which raises exactly when it is a failing command |
| CoreDetector.LimaCoreDetector.Start | LimaTestSuite/LimaDetector.py:249-250 | one `startAcq`, which raises exactly when it is a failing command |
| CoreDetector.LimaCoreDetector.Stop | LimaTestSuite/LimaDetector.py:252-253 | one `stopAcq`, which raises exactly when it is a failing command |
| CoreDetector.LimaCoreDetector.Status | LimaTestSuite/LimaDetector.py:275-277 | one status query, which raises exactly when it is a failing command |
| CoreDetector.LimaCoreDetector.LastImage | LimaTestSuite/LimaDetector.py:263-265 | a fresh `getStatus()`, giving its last acquired image |
| CoreDetector.LimaCoreDetector.LastImageSaved | LimaTestSuite/LimaDetector.py:267-269 | a fresh `getStatus()`, giving its last saved image |
| CoreDetector.LimaCoreDetector.AcqStatus | LimaTestSuite/LimaDetector.py:271-273 | a fresh `getStatus()`, giving its acquisition status |
| CoreDetector.NewLimaCoreDetector | LimaTestSuite/LimaDetector.py:40-87 | building the detector writes the configuration; the detector exists exactly when the write succeeds |
| CoreDetector.SetAcqKeepsOthers | LimaTestSuite/LimaDetector.py:108-118 | setting acquisition parameters replaces the five keys and keeps every other entry |
| CoreDetector.SetSavingKeepsFormat | LimaTestSuite/LimaDetector.py:125 | setting saving parameters leaves `fileFormat` as it was and stores the format untranslated under `'fileFormat '` |
| TangoDetector.ApplyUntouched | LimaTestSuite/LimaTangoDetector.py:41-69 | an attribute no write names keeps its value |
| TangoDetector.RankedDistinct | LimaTestSuite/LimaTangoDetector.py:41-69 | the writes of `write_config_hw` name different attributes |
| TangoDetector.ApplyDistinct | LimaTestSuite/LimaTangoDetector.py:41-69 | with distinct attributes, each holds the value written to it |
| TangoDetector.TangoTrigger | LimaTestSuite/LimaTangoDetector.py:35 | the trigger mode is found exactly when it is a string whose upper case is a key of `_tango_tmode` |
| TangoDetector.TangoTriggerIgnoresCase | LimaTestSuite/LimaTangoDetector.py:8-13 | the trigger lookup ignores case and yields one of the device server's mode names |
| TangoDetector.WriteConfigOrder | LimaTestSuite/LimaTangoDetector.py:24-69 | all seven acquisition values are looked up before the first write; the saving values are looked up only once the seven acquisition writes are all accepted; a run with every value present makes the longest prefix of its fifteen writes that the server accepts, and completes exactly when it accepts all fifteen |
| TangoDetector.Performed | LimaTestSuite/LimaTangoDetector.py:41-69 | the writes a server makes before the first one it refuses: a prefix of the requested writes, none of them refused, followed in the request by a refused one when it is shorter |
| TangoDetector.PerformedAppend | LimaTestSuite/LimaTangoDetector.py:41-69 | two groups of writes in a row: the second group is reached exactly when the whole first group is accepted |
| TangoDetector.FirstWriteRefused | LimaTestSuite/LimaTangoDetector.py:41 | when the server refuses the first write, `acqNbFrames`, `write_config_hw` writes nothing and fails |
| TangoDetector.AcqWrites | LimaTestSuite/LimaTangoDetector.py:32-47 | the seven acquisition writes in the order of the source, the trigger translated to its Tango name; `None` when a value is missing or the trigger has no Tango name (`TangoDetector.AcqAttributesWritten`) |
| TangoDetector.SavingWrites | LimaTestSuite/LimaTangoDetector.py:50-69 | the eight saving writes in the order of the source; `nbframes` must be present but is never written (`TangoDetector.SavingAttributesWritten`, `TangoDetector.NbFramesNeverWritten`) |
| TangoDetector.WriteConfig | LimaTestSuite/LimaTangoDetector.py:24-69 | `write_config_hw` completes exactly when both groups read and the server accepts every write; it stops at the first refused write, and a saving group that does not read leaves the acquisition writes done (`TangoDetector.WriteConfigOrder`, `TangoDetector.FirstWriteRefused`) |
| TangoDetector.WritesDistinct | LimaTestSuite/LimaTangoDetector.py:41-69 | a complete write names fifteen different attributes |
| TangoDetector.AcqAttributesWritten | LimaTestSuite/LimaTangoDetector.py:32-47 | afterwards each acquisition attribute holds its configuration value, and the trigger mode holds its server name |
| TangoDetector.SavingAttributesWritten | LimaTestSuite/LimaTangoDetector.py:50-69 | afterwards each saving attribute holds its configuration value |
| TangoDetector.NbFramesNeverWritten | LimaTestSuite/LimaTangoDetector.py:59-60 | `nbframes` must be configured, yet its value changes nothing that is written |
| TangoDetector.StatusOf | LimaTestSuite/LimaTangoDetector.py:99-109 | `Running` and `Fault` map to their statuses; every other string, unknown ones included, maps to Ready |
| TangoDetector.Device.constructor | LimaTestSuite/LimaTangoDetector.py:15-16 | a device proxy with the given attributes, failing commands and refused writes, which has written and run nothing |
| TangoDetector.Device.WriteAttribute | LimaTestSuite/LimaTangoDetector.py:41 | `write_attribute` fails exactly when the server refuses that write, and then changes nothing; otherwise it sets the attribute and records the write |
| TangoDetector.Device.ReadAttribute | LimaTestSuite/LimaTangoDetector.py:89 | `read_attribute(a).value` is the attribute's value; not found exactly when the server has no such attribute |
| TangoDetector.Device.Run | LimaTestSuite/LimaTangoDetector.py:71-78 | a device command is recorded and succeeds exactly when it is not a failing one |
| TangoDetector.LimaTangoDetector.constructor | LimaTestSuite/LimaTangoDetector.py:7-16 | a detector on the device, with the `_tango_tmode` table and the test's two dictionaries |
| TangoDetector.LimaTangoDetector.WriteAll | LimaTestSuite/LimaTangoDetector.py:41-47 | the writes are made in order up to the first one the server refuses (`TangoDetector.Performed`), the attributes end as the application of those writes says, and the call succeeds exactly when none is refused |
| TangoDetector.LimaTangoDetector.WriteAcq | LimaTestSuite/LimaTangoDetector.py:32-47 | the acquisition half writes nothing when a value is missing, and otherwise makes the seven writes up to the first refused one; it succeeds exactly when all seven are made |
| TangoDetector.LimaTangoDetector.WriteSaving | LimaTestSuite/LimaTangoDetector.py:50-69 | the saving half writes nothing when a value is missing, and otherwise makes the eight writes up to the first refused one; it succeeds exactly when all eight are made |
| TangoDetector.LimaTangoDetector.WriteConfigHw | LimaTestSuite/LimaTangoDetector.py:24-69 | the device's writes and attributes change exactly as `WriteConfig` says for the device's refused writes, and the call succeeds exactly when `WriteConfig` completes |
| TangoDetector.LimaTangoDetector.PrepareAcq | LimaTestSuite/LimaTangoDetector.py:71-72 | one `prepareAcq` command |
| TangoDetector.LimaTangoDetector.Start | LimaTestSuite/LimaTangoDetector.py:74-75 | one `startAcq` command |
| TangoDetector.LimaTangoDetector.Stop | LimaTestSuite/LimaTangoDetector.py:77-78 | one `stopAcq` command |
| TangoDetector.LimaTangoDetector.AcqStatus | LimaTestSuite/LimaTangoDetector.py:99-109 | the device status read as a Lima status: Running and Fault by name, everything else Ready |
| TangoDetector.LimaTangoDetector.Frames | LimaTestSuite/LimaTangoDetector.py:87-89 | `frames` is the device's `acq_nb_frames` with nothing subtracted, and fails when the device lacks it |
| TangoDetector.LimaTangoDetector.LastImage | LimaTestSuite/LimaTangoDetector.py:91-93 | `last_image` is the device's `last_image_acquired`, and fails when the device lacks it |
| TangoDetector.LimaTangoDetector.LastImageSaved | LimaTestSuite/LimaTangoDetector.py:95-97 | `last_image_saved` is the device's `last_image_saved`, and fails when the device lacks it |
| TangoDetector.LimaTangoDetector.Status | LimaTestSuite/LimaTangoDetector.py:112-113 | `status` is the device's `acq_status_fault_error`, and fails when the device lacks it |
| TangoDetector.FramesAfterWrite | LimaTestSuite/LimaTangoDetector.py:87-89 | after a complete configuration write, `frames` is the configured number of frames, with no "minus one" as in the core backend |
| LimaTestCase.FailMessageShape | LimaTestSuite/LimaTestCase.py:18-19 | a failure message is the test name, `" FAILED with msg = "` and the reason |
| LimaTestCase.FailMessage | LimaTestSuite/LimaTestCase.py:18-19 | the failure text: the test name, ` FAILED with msg = `, then the reason (`LimaTestCase.FailMessageShape`) |
| LimaTestCase.FinalCheck | LimaTestSuite/LimaTestCase.py:103-105 | after the loop one fresh status read must be Ready; a failure reports the status of the last iteration (`LimaTestCase.FinalReads`) |
| LimaTestCase.AbortPath | LimaTestSuite/LimaTestCase.py:67-73 | the abort branch: `stop()`, two seconds, `prepare_acq()`, two seconds, a status read, then the check after the loop; a raising command ends it (`LimaTestCase.AbortReads`, `LimaTestCase.AbortSequence`) |
| LimaTestCase.Iteration | LimaTestSuite/LimaTestCase.py:57-101 | one loop iteration: three reads, then the target, abort and Ready tests in the order of the source, then at most five settle polls (`LimaTestCase.ContinuePasses`, `LimaTestCase.ContinueReadyFails`) |
| LimaTestCase.Watch | LimaTestSuite/LimaTestCase.py:57-105 | the `while True` loop over the script; a script with fewer than three snapshots left ends it as `Exhausted` (`LimaTestCase.WatchPasses`, `LimaTestCase.WatchReadyFails`, `LimaTestCase.WatchReadsInOrder`) |
| LimaTestCase.RunSpec | LimaTestSuite/LimaTestCase.py:49-105 | a command that raises ends the run; otherwise the loop runs with the last image, `nbFrames - 1`, as its target |
| LimaTestCase.RunAsWritten | LimaTestSuite/LimaTestCase.py:54 | as written, the loop's target is `nbFrames - 2` |
| LimaTestCase.RunPassesSaved | LimaTestSuite/LimaTestCase.py:57-105 | a passing run's last consumed read is Ready; without abort, the saved-image read of the iteration that left the loop, three reads before that, is the last image `nbFrames - 1`; with abort, the run left at its first iteration, after four reads at that image or five short of it |
| LimaTestCase.AsWrittenPassesEarly | LimaTestSuite/LimaTestCase.py:54-65 | as written, a pass without abort left the loop on a saved-image read of image `nbFrames - 2` |
| LimaTestCase.FinalReads | LimaTestSuite/LimaTestCase.py:103-105 | the check after the loop reads its snapshot in order |
| LimaTestCase.AbortReads | LimaTestSuite/LimaTestCase.py:67-73 | the abort branch reads its snapshots in order |
| LimaTestCase.WatchReadsInOrder | LimaTestSuite/LimaTestCase.py:57-105 | the loop reads the script in order and skips none; it runs out only after consuming it all |
| LimaTestCase.ContinueReadsInOrder | LimaTestSuite/LimaTestCase.py:80-101 | an iteration that goes on reads in order when the rest of the loop does |
| LimaTestCase.ContinuePasses | LimaTestSuite/LimaTestCase.py:80-101 | an iteration that goes on shifts the positions a pass has read by the snapshots it consumed, so they still hold over the whole script |
| LimaTestCase.WatchPasses | LimaTestSuite/LimaTestCase.py:57-105 | a loop that passes ends on a Ready read; without abort, the iteration that left it read the target image saved three reads before the end; an aborted pass left at its first iteration |
| LimaTestCase.WatchCommands | LimaTestSuite/LimaTestCase.py:67-70 | the only commands the loop issues are the abort branch's `stop` and `prepare_acq` |
| LimaTestCase.RunOpens | LimaTestSuite/LimaTestCase.py:50-51 | `runTest` first prepares and then starts; a command that raises ends the run before any status read |
| LimaTestCase.TargetAtFirstLook | LimaTestSuite/LimaTestCase.py:64-65 | when the first look shows the target saved, one more status read decides, and no `stop` is issued even by an abort test |
| LimaTestCase.AbortSequence | LimaTestSuite/LimaTestCase.py:67-73 | an abort test stops, sleeps, re-prepares, sleeps, reads twice and ends; a failure reports the status of the first look |
| LimaTestCase.ReadyTooEarly | LimaTestSuite/LimaTestCase.py:76-78 | at the first look, Ready before the target image is saved fails the test at once; `LimaTestCase.WatchReadyFails` states it for every iteration |
| LimaTestCase.ContinueReadyFails | LimaTestSuite/LimaTestCase.py:76-101 | an iteration that goes on (no target, no abort, not Ready) keeps the exact position of a later "Ready too early" failure |
| LimaTestCase.WatchReadyFails | LimaTestSuite/LimaTestCase.py:57-101 | whenever the loop fails because Ready came before the target image, at any iteration: abort is off, the status read of that iteration (the last snapshot consumed) is Ready, and its saved-image read is not the target |
| LimaTestCase.RunReadyFails | LimaTestSuite/LimaTestCase.py:49-105 | the same for `runTest`, with the last image, `nbFrames - 1`, as the target |
| LimaTestCase.TenFramesPassEarly | LimaTestSuite/LimaTestCase.py:54 | with ten frames, the loop as written passes a run in which image 9 was never saved, and the corrected loop does not |
| LimaTestCase.LimaCCDAcquisitionTest.constructor | LimaTestSuite/LimaTestCase.py:9-16 | a test with the configuration's name, the abort flag and no Tango mode |
| LimaTestCase.LimaCCDAcquisitionTest.SetUp | LimaTestSuite/LimaTestCase.py:21-35 | a missing `directory` changes nothing; otherwise the detector is built and the configuration written as `WriteConfig` says |
| LimaTestCase.LimaCCDAcquisitionTest.Finish | LimaTestSuite/LimaTestCase.py:103-105 | the check after the loop, as `FinalCheck` |
| LimaTestCase.LimaCCDAcquisitionTest.Abort | LimaTestSuite/LimaTestCase.py:67-73 | the abort branch, as `AbortPath` |
| LimaTestCase.LimaCCDAcquisitionTest.WaitReady | LimaTestSuite/LimaTestCase.py:97-101 | the `for` loop waiting for Ready, as `Settle` |
| LimaTestCase.LimaCCDAcquisitionTest.ReadThree | LimaTestSuite/LimaTestCase.py:58-60 | three fresh status reads, giving the second one's saved image and the third one's status |
| LimaTestCase.LimaCCDAcquisitionTest.Pause | LimaTestSuite/LimaTestCase.py:80-101 | one frame period of sleep, then the wait for Ready |
| LimaTestCase.LimaCCDAcquisitionTest.Iterate | LimaTestSuite/LimaTestCase.py:57-101 | one iteration either ends the loop as `Watch` says or leaves the rest of `Watch` to run |
| LimaTestCase.LimaCCDAcquisitionTest.WatchLoop | LimaTestSuite/LimaTestCase.py:57-105 | the `while True` loop and the check after it, as `Watch` |
| LimaTestCase.LimaCCDAcquisitionTest.RunTest | LimaTestSuite/LimaTestCase.py:49-105 | `runTest` ends, logs and reads exactly as `RunAsWritten` says for the configured number of frames, so it waits for image `acqNbFrames - 2` |
| LimaTestCase.LimaCCDAcquisitionTest.TearDown | LimaTestSuite/LimaTestCase.py:108-110 | the detector is released |
| CcdDetector.StartOpens | LimaTestSuite/LimaCCDDetector.py:248-252 | `start` first issues `startAcq`, and fails for that command exactly when it raises |
| CcdDetector.FinalRead | LimaTestSuite/LimaCCDDetector.py:320-323 | the last status read: Ready passes, any other status raises with its own code (`CcdDetector.FinalReadsInOrder`) |
| CcdDetector.AfterLoop | LimaTestSuite/LimaCCDDetector.py:313-323 | the `WAIT_TIMEOUT` settle loop, then the last status read (`CcdDetector.AfterLoopCheck`, `CcdDetector.AfterLoopVerdict`) |
| CcdDetector.Stopping | LimaTestSuite/LimaCCDDetector.py:277-281 | the abort branch: `stop()` (raising when `stopAcq` raises), three seconds, a status read, then what follows the loop (`CcdDetector.StoppingReads`, `CcdDetector.AbortStopsOnce`) |
| CcdDetector.Loop | LimaTestSuite/LimaCCDDetector.py:267-302 | the `while True` loop: three reads, the target, abort and Ready tests in the order of the source, a cycle sleep and a debug read (`CcdDetector.LoopPasses`, `CcdDetector.LoopReadyFails`, `CcdDetector.LoopReadsInOrder`) |
| CcdDetector.StartSpec | LimaTestSuite/LimaCCDDetector.py:247-323 | `start(abort)`: `startAcq`, raising when it raises, then the loop with the last image, `nbFrames - 1`, as the target (`CcdDetector.StartOpens`) |
| CcdDetector.LoopErrors | LimaTestSuite/LimaCCDDetector.py:277-281 | the only command that can make the loop raise is the abort test's `stop` |
| CcdDetector.AfterLoopCheck | LimaTestSuite/LimaCCDDetector.py:313-323 | after the loop at most eleven snapshots are read, in order; a pass ends on Ready; a failure quotes the last status read, which is not Ready |
| CcdDetector.AfterLoopReads | LimaTestSuite/LimaCCDDetector.py:313-323 | after the loop at most eleven snapshots are read, in order and skipping none |
| CcdDetector.AfterLoopVerdict | LimaTestSuite/LimaCCDDetector.py:313-323 | a pass after the loop ends on Ready; a failure quotes the status of the last read, which is not Ready |
| CcdDetector.FinalReadsInOrder | LimaTestSuite/LimaCCDDetector.py:320-323 | the final read takes its snapshot in order |
| CcdDetector.StoppingReads | LimaTestSuite/LimaCCDDetector.py:277-281 | the abort branch reads its snapshots in order |
| CcdDetector.LoopReadsInOrder | LimaTestSuite/LimaCCDDetector.py:267-323 | the loop and the checks after it read the script in order and skip none |
| CcdDetector.LeavingPasses | LimaTestSuite/LimaCCDDetector.py:274-281 | leaving the loop at its first iteration, on the target image or on abort, passes only on a Ready read within the wait that follows that iteration |
| CcdDetector.LeavingAtTarget | LimaTestSuite/LimaCCDDetector.py:274-275 | leaving the loop at its first iteration on the target image passes only on a Ready read at most `WaitTimeout` reads after it |
| CcdDetector.LeavingOnAbort | LimaTestSuite/LimaCCDDetector.py:277-281 | leaving the loop on abort short of the target passes only on a Ready read after the debug read and the wait |
| CcdDetector.GoingOnPasses | LimaTestSuite/LimaCCDDetector.py:289-290 | an iteration that goes on (no target, no abort, not Ready) moves the iteration that leaves the loop four reads later, and every earlier one still went on |
| CcdDetector.LeavesLater | LimaTestSuite/LimaCCDDetector.py:267-290 | an iteration that goes on, followed by a loop that leaves at iteration `j`, is a loop that leaves at iteration `j + 4` |
| CcdDetector.LoopPasses | LimaTestSuite/LimaCCDDetector.py:267-323 | a passing loop ends on a Ready read; some iteration left it, on the target image or on abort, every iteration before it went on, and the run ended within the wait after it |
| CcdDetector.AfterLoopQuiet | LimaTestSuite/LimaCCDDetector.py:313-323 | the wait and the final read issue no command |
| CcdDetector.LoopCommands | LimaTestSuite/LimaCCDDetector.py:267-323 | the only command the loop issues is the abort test's `stop` |
| CcdDetector.AbortStopsOnce | LimaTestSuite/LimaCCDDetector.py:277-281 | an abort test that has not yet seen the target reads three statuses, stops once, and issues nothing more |
| CcdDetector.TargetBeforeAbort | LimaTestSuite/LimaCCDDetector.py:274-275 | when the target is already saved, even an abort test issues no command |
| CcdDetector.ReadyRaises | LimaTestSuite/LimaCCDDetector.py:284-287 | at the first look, Ready before the last image is saved raises at once, after the three reads; `CcdDetector.LoopReadyFails` states it for every iteration |
| CcdDetector.GoingOnReadyFails | LimaTestSuite/LimaCCDDetector.py:284-290 | an iteration that goes on keeps the exact position of a later "Ready too early" error |
| CcdDetector.StoppingNotReadyFailure | LimaTestSuite/LimaCCDDetector.py:277-281 | the abort branch never raises the "Ready too early" error |
| CcdDetector.AfterLoopNotReadyFailure | LimaTestSuite/LimaCCDDetector.py:313-323 | what follows the loop never raises the "Ready too early" error |
| CcdDetector.LeavingNotReadyFailure | LimaTestSuite/LimaCCDDetector.py:274-281 | an iteration that leaves the loop, at the target or on abort, never raises the "Ready too early" error |
| CcdDetector.ReadyFailsHere | LimaTestSuite/LimaCCDDetector.py:284-287 | an iteration without target or abort whose status read is Ready raises there, with its three reads consumed |
| CcdDetector.LoopReadyFails | LimaTestSuite/LimaCCDDetector.py:267-302 | whenever the loop raises because Ready came before the last image, at any iteration: abort is off, the status read of that iteration is Ready and its saved-image read is not the target |
| CcdDetector.StartReadyFails | LimaTestSuite/LimaCCDDetector.py:247-323 | the same for `start(abort)`, with the last image as the target |
| CcdDetector.AfterTimeout | LimaTestSuite/LimaCCDDetector.py:314-323 | with no Ready for `WAIT_TIMEOUT` reads, the next read alone decides and is quoted on failure |
| CcdDetector.TargetThenTimeout | LimaTestSuite/LimaCCDDetector.py:262-323 | the target image `nbFrames - 1` saved at first look, then ten reads that are not Ready: the eleventh read decides |
| CcdDetector.LimaDetector.constructor | LimaTestSuite/LimaCCDDetector.py:58-115 | a detector on the control object with the test's two dictionaries |
| CcdDetector.LimaDetector.UpdateAcqParams | LimaTestSuite/LimaCCDDetector.py:187-196 | the acquisition parameters are written exactly when the update translates; otherwise nothing changes |
| CcdDetector.LimaDetector.UpdateSavingParams | LimaTestSuite/LimaCCDDetector.py:198-207 | the saving parameters are written exactly when the update translates; otherwise nothing changes |
| CcdDetector.LimaDetector.SetAcqParameters | LimaTestSuite/LimaCCDDetector.py:216-225 | the five acquisition values, with the same defaults, are translated and written, or nothing changes |
| CcdDetector.LimaDetector.SetSavingParameters | LimaTestSuite/LimaCCDDetector.py:227-237 | the six saving values, with the same defaults, are translated and written, or nothing changes |
| CcdDetector.LimaDetector.PrepareAcq | LimaTestSuite/LimaCCDDetector.py:213-214 | one `prepareAcq` |
| CcdDetector.LimaDetector.Stop | LimaTestSuite/LimaCCDDetector.py:325-329 | one `stopAcq`, which raises exactly when it is a failing command |
| CcdDetector.LimaDetector.Status | LimaTestSuite/LimaCCDDetector.py:331-335 | one status query |
| CcdDetector.LimaDetector.AcqStatus | LimaTestSuite/LimaCCDDetector.py:270 | a fresh `getStatus()`, giving its acquisition status |
| CcdDetector.LimaDetector.ReadFinal | LimaTestSuite/LimaCCDDetector.py:320-323 | the last status read, as `FinalRead` |
| CcdDetector.LimaDetector.WaitReady | LimaTestSuite/LimaCCDDetector.py:314-318 | the `for` loop waiting for Ready, as `Settle` |
| CcdDetector.LimaDetector.Conclude | LimaTestSuite/LimaCCDDetector.py:313-323 | the wait and the final read, as `AfterLoop` |
| CcdDetector.LimaDetector.Abort | LimaTestSuite/LimaCCDDetector.py:277-281 | the abort branch, as `Stopping` |
| CcdDetector.LimaDetector.ReadThree | LimaTestSuite/LimaCCDDetector.py:268-270 | three fresh status reads, giving the second one's saved image and the third one's status |
| CcdDetector.LimaDetector.Iterate | LimaTestSuite/LimaCCDDetector.py:267-302 | one iteration either ends the run as `Loop` says or leaves the rest of `Loop` to run |
| CcdDetector.LimaDetector.WatchLoop | LimaTestSuite/LimaCCDDetector.py:267-323 | the `while True` loop and the checks after it, as `Loop` |
| CcdDetector.LimaDetector.Start | LimaTestSuite/LimaCCDDetector.py:247-323 | `start(abort)` ends, logs and reads exactly as `StartSpec` says for the configured number of frames |
| CcdTestCase.VerdictOf | LimaTestSuite/LimaCCDTestCase.py:43-47 | the verdict of `runTest`: success when `start` returns, and a failure whose message names the test and the raised text when it raises (`CcdTestCase.VerdictMeaning`) |
| CcdTestCase.VerdictMeaning | LimaTestSuite/LimaCCDTestCase.py:43-47 | the test succeeds exactly when `start` passes; a failure message names the test and ends with the text `start` raised |
| CcdTestCase.SuccessMeansReady | LimaTestSuite/LimaCCDTestCase.py:43-47 | a successful test saw `startAcq` succeed and its last consumed read Ready; the iteration that left the loop read the last image saved, or, with abort, was the first iteration |
| CcdTestCase.LimaCCDAcquisitionTest.constructor | LimaTestSuite/LimaCCDTestCase.py:39-41 | a test with the configuration's name and the abort flag, false unless given |
| CcdTestCase.LimaCCDAcquisitionTest.Configure | LimaTestSuite/LimaCCDTestCase.py:25-29 | acquisition parameters, saving parameters, then `prepare_acq`; each step only after the one before succeeded |
| CcdTestCase.LimaCCDAcquisitionTest.SetUp | LimaTestSuite/LimaCCDTestCase.py:15-29 | a missing `directory` changes nothing; otherwise a new detector is built on the control object and configured |
| CcdTestCase.LimaCCDAcquisitionTest.RunTest | LimaTestSuite/LimaCCDTestCase.py:43-47 | the verdict is that of the detector's `start(abort)`, as `StartSpec` says |
| CcdTestCase.LimaCCDAcquisitionTest.TearDown | LimaTestSuite/LimaCCDTestCase.py:49-51 | the detector is released |
| LegacyDetector.BaseAcqDefaultsKeepLatency | LimaCCDDetector.py:12-25 | the base defaults set the misspelled `lattencyTime`, so `latencyTime` keeps whatever value it had |
| LegacyDetector.NamesOf | LimaCCDDetector.py:276-278 | the directory, prefix and suffix are read exactly when the three saving parameters are strings, and are those strings |
| LegacyDetector.LastFilename | LimaCCDDetector.py:272-280 | the file name `get_last_filename` builds from the saving parameters |
| LegacyDetector.ZerosValue | LimaCCDDetector.py:280 | a run of zeros is all digits and reads as zero |
| LegacyDetector.ZerosPrefixValue | LimaCCDDetector.py:280 | padding with zeros does not change the number a string of digits reads as |
| LegacyDetector.ImageNumber | LimaCCDDetector.py:278-280 | the image number in a file name has at least four digits and reads back as the image index |
| LegacyDetector.LastFilenameShape | LimaCCDDetector.py:272-280 | the file name is the directory joined with prefix, four-digit number and suffix |
| LegacyDetector.SentLines | LimaCCDDetector.py:237-241 | the lines sent to the viewer for a run of notifications, one line per notification |
| LegacyDetector.SentLinesAt | LimaCCDDetector.py:237-241 | each line sent is the `load_image` line for the file of its notification's image |
| LegacyDetector.SentLinesAppend | LimaCCDDetector.py:237-241 | the lines of two runs of notifications are those of the first, then those of the second |
| LegacyDetector.StartSpec | LimaCCDDetector.py:222-243 | `start` issues `startAcq`, reads the first saved counter and follows it |
| LegacyDetector.Watch | LimaCCDDetector.py:234-243 | `while last_img < target`: a quarter-exposure sleep and a counter read per turn; with the viewer on, each newer counter is followed by a status read and one file name sent (`LegacyDetector.WatchExits`, `LegacyDetector.SendsNameFiles`) |
| LegacyDetector.WatchExits | LimaCCDDetector.py:234-243 | the loop ends only by passing, or by running out of script; a pass consumed whole iterations, its last counter read, two before the end, is at or beyond the target, and every earlier iteration read a counter below it |
| LegacyDetector.WatchStep | LimaCCDDetector.py:235-243 | one iteration: a sleep, a read, then either a notification with the file name of the next read, or a read for the log |
| LegacyDetector.StartEnds | LimaCCDDetector.py:222-243 | `start` begins with `startAcq`; a command error never ends it; a pass ends one read after a saved counter of at least `nbFrames - 1`, the first one read, and every earlier counter read is below it |
| LegacyDetector.WatchAsWritten | LimaCCDDetector.py:234-243 | the loop as written: with a viewer, the first new saved counter raises the `TypeError` of `self.ct_save()` (line 273) before the next read |
| LegacyDetector.WrittenAfter | LimaCCDDetector.py:234-243 | events logged before a loop turn come before the turn's own, whether the turn completes or raises |
| LegacyDetector.StartAsWritten | LimaCCDDetector.py:222-243 | `start()` as written: `startAcq`, the first counter read, then the loop as written (`LegacyDetector.StartAsWrittenRaises`) |
| LegacyDetector.AsWrittenWithoutViewer | LimaCCDDetector.py:234-243 | without a viewer the loop as written runs exactly as `Watch` |
| LegacyDetector.AsWrittenUntilNotice | LimaCCDDetector.py:234-243 | with a viewer, every run in which `Watch` notifies raises as written after a prefix of its events; a run as written that completes is `Watch`'s run and notifies nobody |
| LegacyDetector.StartAsWrittenRaises | LimaCCDDetector.py:222-243 | `start()` as written sends the viewer nothing: it raises wherever the corrected `start` notifies, and otherwise runs as `StartSpec` |
| LegacyDetector.ViewerStartRaises | LimaCCDDetector.py:272-273 | two frames, a viewer, counters 0, 1, 1: as written `start()` raises, while `StartSpec` sends image 1 and passes |
| LegacyDetector.SendsIncrease | LimaCCDDetector.py:237-240 | notifications are sent only for new images, in increasing order, and none without a viewer |
| LegacyDetector.SavedImages | LimaCCDDetector.py:273-274 | the last saved image that each status read of a script reports, in order |
| LegacyDetector.SavedImagesLater | LimaCCDDetector.py:273-274 | the images reported by a later part of the script are the tail of those of the whole script |
| LegacyDetector.NamedFromLater | LimaCCDDetector.py:237-241 | notifications whose images a later part of the script reported have images the whole script reported |
| LegacyDetector.NamedFromCons | LimaCCDDetector.py:237-241 | adding one more notification with a reported image keeps every image reported |
| LegacyDetector.SendsNameFiles | LimaCCDDetector.py:237-241 | a viewer gets notifications only when the saving names are set, and each names an image that a fresh status read reported as last saved |
| LegacyDetector.StartFollows | LimaCCDDetector.py:222-234 | after `startAcq` and the first read, `start` is its loop from `last_img_sent = -1` and the first saved image |
| LegacyDetector.StartDone | LimaCCDDetector.py:222-243 | a finished loop gives the outcome, notifications, log and remaining script that `start` has |
| LegacyDetector.LimaDetector.constructor | LimaCCDDetector.py:54-102 | a detector on the control object, with the optional viewer socket and the plugin's two default dictionaries |
| LegacyDetector.LimaDetector.UpdateAcqParams | LimaCCDDetector.py:162-171 | the acquisition parameters are written exactly when the update translates; otherwise nothing changes |
| LegacyDetector.LimaDetector.UpdateSavingParams | LimaCCDDetector.py:173-182 | the saving parameters are written exactly when the update translates; otherwise nothing changes |
| LegacyDetector.LimaDetector.SetDefaultParameters | LimaCCDDetector.py:184-186 | the saving defaults are written before the acquisition defaults; each only after the one before succeeded |
| LegacyDetector.LimaDetector.PrepareAcq | LimaCCDDetector.py:188-189 | one `prepareAcq` |
| LegacyDetector.LimaDetector.Stop | LimaCCDDetector.py:245-249 | one `stopAcq`, whose error is only logged |
| LegacyDetector.LimaDetector.Status | LimaCCDDetector.py:251-255 | one status query |
| LegacyDetector.LimaDetector.Delete | LimaCCDDetector.py:257-261 | one camera exit, whose error is only logged |
| LegacyDetector.LimaDetector.GetLastFilename | LimaCCDDetector.py:272-280 | a fresh `getStatus()` and the file name of its last saved image |
| LegacyDetector.LimaDetector.Step | LimaCCDDetector.py:234-243 | one iteration either ends the run as `Watch` says or leaves the rest of `Watch` to run |
| LegacyDetector.LimaDetector.WatchLoop | LimaCCDDetector.py:234-243 | the `while` loop ends, logs, reads and notifies the viewer exactly as `Watch` says |
| LegacyDetector.LimaDetector.Start | LimaCCDDetector.py:222-243 | `start` ends, logs and reads exactly as `StartSpec` says, and sends the viewer exactly its notifications |
| LegacyDetector.NewLegacyDetector | LimaCCDDetector.py:104-140 | the detector exists exactly when its defaults translate; the saving defaults are written first; when the saving defaults do not translate nothing is written, and when only the acquisition defaults fail the saving write alone is made |
| LegacyTestCase.PluginName | LimaCCDTestCase.py:14 | the plugin name is the configured detector name with `Detector` appended |
| LegacyTestCase.LimaCCDAquisitionTest.constructor | LimaCCDTestCase.py:7-21 | a test with the configuration's name, the plugin name and the detector |
| LegacyTestCase.LimaCCDAquisitionTest.SetUp | LimaCCDTestCase.py:23-34 | acquisition parameters, saving parameters, then `prepare_acq`; each step only after the one before succeeded |
| LegacyTestCase.LimaCCDAquisitionTest.RunTest | LimaCCDTestCase.py:47-48 | the detector's `start`, as `StartSpec` says |
| LegacyTestCase.NewAquisitionTest | LimaCCDTestCase.py:7-21 | the test exists exactly when its detector's defaults translate; on failure the controller holds at most the saving write, as for `LegacyDetector.NewLegacyDetector` |
| ConfigSource.Get | LimaTestSuite/LimaConfigHelper.py:101 | `config.get(section, option)` returns the option's text, and raises for a missing section or a missing option |
| ConfigSource.Convert | LimaTestSuite/LimaConfigHelper.py:9-27 | `str` always converts; `int` converts exactly the integer texts; `float` exactly the float texts, the infinities and not-a-number included |
| Common.SpecialFloats | LimaTestSuite/LimaConfigHelper.py:9-15 | `float` accepts `inf` and `nan` with a sign and in any case |
| Common.NotSpecialFloats | LimaTestSuite/LimaConfigHelper.py:9-15 | `float` rejects a cut-off `infinity` and a doubled sign |
| ConfigSource.ReadDefaults | LimaTestSuite/LimaConfigHelper.py:116-130 | the defaults section is read exactly when every wanted key is present and converts, and then holds exactly the wanted keys |
| ConfigSource.ReadAll | LimaTestSuite/LimaConfigHelper.py:116-130 | the values of a defaults section, or `None` exactly when a wanted option is missing or does not convert (`ConfigSource.ReadAllFails`, `ConfigSource.ReadAllGives`) |
| ConfigSource.TestsList | LimaTestSuite/LimaConfigHelper.py:146-150 | the test sections are exactly the sections that are not default sections, in file order |
| ConfigSource.TestsListAppend | LimaConfigHelper.py:146-150 | filtering two lists of sections is filtering each one |
| ConfigSource.TestsListKeepsOthers | LimaConfigHelper.py:146-150 | a file without default sections lists all its sections as tests |
| ConfigSource.RouteStep | LimaTestSuite/LimaConfigHelper.py:178-194 | routing one more option either raises for that key or extends the classification |
| ConfigSource.Route | LimaTestSuite/LimaConfigHelper.py:178-194 | the loop body for one option: the converted value goes to the acquisition or saving parameters, to the type, or to the repeat count, or the load fails (`ConfigSource.RouteStep`) |
| ConfigSource.Classified | LimaTestSuite/LimaConfigHelper.py:178-194 | the routed options of a section independently of the visiting order (`ConfigSource.ClassifyTestKeys`, `ConfigSource.ClassifiedAcq`) |
| ConfigSource.GoodExtends | LimaTestSuite/LimaConfigHelper.py:178-194 | a valid option added to valid options keeps them valid |
| ConfigSource.ClassifiedAcq | LimaTestSuite/LimaConfigHelper.py:180-182 | the test's acquisition dictionary holds exactly its acquisition options, each converted |
| ConfigSource.ClassifiedSaving | LimaTestSuite/LimaConfigHelper.py:183-187 | the test's saving dictionary holds exactly its saving options, each converted |
| ConfigSource.ConfigKeysRoutable | LimaTestSuite/LimaConfigHelper.py:9-27 | the two key tables are disjoint, and neither holds `type` or `repeat` |
| ConfigSource.KeyTablesSeparate | LimaConfigHelper.py:17-35 | the acquisition and saving keys are disjoint, and neither table holds `type` or `repeat` |
| ConfigSource.DirectoryKey | LimaTestSuite/LimaConfigHelper.py:122 | among the saving keys, only `directory` lower-cases to `directory` |
| ConfigSource.ClassifyTestKeys | LimaTestSuite/LimaConfigHelper.py:178-194 | the loop over a test's options succeeds exactly when every option is valid; otherwise it raises for one invalid option |
| ConfigSource.PresentMeans | LimaTestSuite/LimaConfigHelper.py:157-159 | all tests are loaded exactly when each one loads, in order |
| ConfigSource.Present | LimaTestSuite/LimaConfigHelper.py:157-159 | the loaded configurations in order, or `None` when one load gives none (`ConfigSource.PresentMeans`) |
| ConfigSource.PresentStep | LimaTestSuite/LimaConfigHelper.py:157-159 | loading one more test appends it, or stops |
| ConfigSource.PresentPrefix | LimaTestSuite/LimaConfigHelper.py:157-159 | once a test fails, loading stops |
| Config.Copied | LimaTestSuite/LimaConfigHelper.py:45-63 | `get_copy` takes the given name, type and repeat count and the base's detector type, host, port and device; each dictionary holds the keys of both, a given key with its given value and every other key with the base value |
| Config.LoadedAllAt | LimaTestSuite/LimaConfigHelper.py:157-159 | the `i`-th load is that of the `i`-th test section |
| Config.DefaultSpec | LimaTestSuite/LimaConfigHelper.py:96-144 | what `load_default_test` leaves as the default test, or the exception it lets through (`Config.LimaTestParser.LoadDefaultTest`) |
| Config.LoadedSpec | LimaTestSuite/LimaConfigHelper.py:161-207 | the configuration `load_test` builds for a section, or `None` when it raises (`Config.LoadedIdentity`, `Config.LoadedFolder`, `Config.LoadedAcq`) |
| Config.LoadedIdentity | LimaTestSuite/LimaConfigHelper.py:199-201 | a loaded test has its section name, a non-empty type and its repeat count (1 by default), and the defaults' detector, host, port and device |
| Config.LoadedFolder | LimaTestSuite/LimaConfigHelper.py:195-196 | a loaded test's `directory` is its dated test folder, under the test's own `directory` when it gives one |
| Config.LoadedAcq | LimaTestSuite/LimaConfigHelper.py:57-61 | a loaded test's acquisition values are its own where it gives them, and the defaults' elsewhere |
| Config.LoadedSaving | LimaTestSuite/LimaConfigHelper.py:57-61 | a loaded test's saving values other than `directory` are its own where it gives them, and the defaults' elsewhere |
| Config.LimaTestParser.constructor | LimaTestSuite/LimaConfigHelper.py:73-90 | a parser on the file, with the two key tables and the four default sections, that has loaded nothing yet |
| Config.LimaTestParser.LoadDefaultTest | LimaTestSuite/LimaConfigHelper.py:96-144 | raises when the detector section is incomplete; keeps no defaults when a value is missing; otherwise sets them |
| Config.LimaTestParser.LoadTest | LimaTestSuite/LimaConfigHelper.py:161-207 | raises for a missing section or an invalid key, before any folder is created; otherwise creates the test folder and returns the test, or raises when there are no defaults or no type |
| Config.LimaTestParser.LoadTests | LimaTestSuite/LimaConfigHelper.py:152-159 | the tests are those of every test section, in order, or loading raises |
| Config.LimaTestParser.Load | LimaTestSuite/LimaConfigHelper.py:73-93 | the parser loads the defaults and then every test |
| LegacyConfig.WithDefaults | LimaConfigHelper.py:44-52 | every key starts as `None`, and the given entries override it |
| LegacyConfig.NewConfiguration | LimaConfigHelper.py:37-52 | a configuration holds every acquisition and saving key, `None` where no value was given |
| LegacyConfig.DefaultsHaveNoNull | LimaConfigHelper.py:136-140 | a defaults section read in full holds no `None`, so the check after reading never fails |
| LegacyConfig.LegacyLoadedAllAt | LimaConfigHelper.py:157-159 | the `i`-th load is that of the `i`-th test section |
| LegacyConfig.LegacyDefaultSpec | LimaConfigHelper.py:111-144 | what the root `load_default_test` leaves as the default test; the detector name is read outside the `try` (`LegacyConfig.LegacyTestParser.LoadDefaultTest`) |
| LegacyConfig.LegacyLoadedSpec | LimaConfigHelper.py:161-195 | what the root `load_test` gives, or `None` when it raises; no configuration without a default test or a non-empty type (`LegacyConfig.LegacyLoadedNeedsDefaultAndType`) |
| LegacyConfig.LegacyLoadedNeedsDefaultAndType | LimaConfigHelper.py:188-195 | a valid test yields a configuration exactly when there are defaults and a non-empty type, and `None` otherwise |
| LegacyConfig.LegacyLoadedAcq | LimaConfigHelper.py:188-194 | a loaded test's acquisition values are its own where it gives them, the defaults' elsewhere, `None` where neither gives one |
| LegacyConfig.LegacyLoadedSaving | LimaConfigHelper.py:188-194 | a loaded test's saving values are its own where it gives them, and the defaults' elsewhere |
| LegacyConfig.LegacyRejectsRepeat | LimaConfigHelper.py:175-186 | the root parser has no `repeat` key: a test that sets it raises |
| LegacyConfig.LegacyTestParser.constructor | LimaConfigHelper.py:90-106 | a parser on the file, with the three default sections, that has loaded nothing yet |
| LegacyConfig.LegacyTestParser.LoadDefaultTest | LimaConfigHelper.py:111-144 | raises when the detector name is missing; keeps no defaults when a value is missing; otherwise sets them |
| LegacyConfig.LegacyTestParser.LoadTest | LimaConfigHelper.py:161-195 | raises for a missing section or an invalid key; otherwise returns the test, or nothing |
| LegacyConfig.LegacyTestParser.LoadTests | LimaConfigHelper.py:152-159 | the tests, or nothing for each test that has no defaults or type, of every test section, in order |
| LegacyConfig.LegacyTestParser.Load | LimaConfigHelper.py:90-109 | the parser loads the defaults and then every test |
| Suite.KindIgnoresCase | LimaTestSuite/__main__.py:18-22 | the test type is matched whatever its case |
| Suite.Kind | LimaTestSuite/__main__.py:18-22 | how a test type runs: `acquisition` without abort, `abort` with it where the runner knows it, anything else rejected (`Suite.KindIgnoresCase`) |
| Suite.Dispatch | LimaTestSuite/__main__.py:17-25 | the cases added to the suite, in test order (`Suite.DispatchSound`, `Suite.DispatchComplete`) |
| Suite.Rejected | LimaTestSuite/__main__.py:26-27 | the types logged as invalid, in test order (`Suite.DispatchSplits`) |
| Suite.DispatchSplits | LimaTestSuite/__main__.py:17-27 | every test is either added to the suite or reported as invalid |
| Suite.DispatchSound | LimaTestSuite/__main__.py:17-25 | every case added comes from a test of that name and a valid type, with the abort flag its type asks for |
| Suite.DispatchComplete | LimaTestSuite/__main__.py:17-25 | every test of a valid type is added, with its abort flag |
| Suite.NoAbortWithout | run_test.py:15-21 | without the abort type only plain acquisition tests are built |
| Suite.BuildSuite | LimaTestSuite/__main__.py:17-27 | the loop builds exactly the dispatched cases and reports exactly the rejected tests |
| Suite.SomesAll | LimaConfigHelper.py:157-159 | when every loaded test is there, the present tests are all of them, in order |
| Suite.Somes | run_test.py:15-21 | the tests that were loaded, in order (`Suite.SomesAll`) |
| Suite.BuildRootSuite | run_test.py:15-21 | the root loop raises exactly when the parser left some test as `None`, at the first such test; otherwise it builds exactly the dispatched cases and rejects exactly the invalid types |
| Suite.Count | LimaTestSuite/__main__.py:30-31 | a count of results never exceeds the number of results |
| Suite.TallyAccounts | LimaTestSuite/__main__.py:29-33 | errors, failures and passes together are all the results; no errors and no failures means every case passed |
| Suite.Tally | LimaTestSuite/__main__.py:29-33 | `len(result.errors)` and `len(result.failures)` (`Suite.TallyAccounts`) |

## Left out

- I/O, logging and time are left out.
  - The configuration file is given already parsed.
  - Debug and info logging, `print_*`, `__repr__` and the unittest runner's report are not modelled.
  - Times and sleeps appear only as sleep events in the log. Whether a sleep lasts a second or a frame period is recorded, not its length in floating point.
  - `set_debug` is not modelled.
- Plugin loading (`init`, `init_hw`, `SpecificDetector`/`BaseDetector`) is not modelled.
  - It imports a module by name and instantiates a camera.
  - The model takes the control object, and the defaults dictionaries the plugin would give, as parameters.
- `__del__` and the Tango `__del__` sleep are not modelled. The root `delete` is modelled.
- `acq_time` and every frame period are not modelled. The model needs only the fact that a sleep happens.
- The monitors' `if False:` branches and the commented-out checks are dead code and are not modelled.
- `print_acq_params`/`print_saving_params` print the acquisition parameters in both cases. This only affects output and is not modelled.
- Tango attributes created dynamically, and `read_attribute` on an attribute the server lacks, are modelled as a failed read. A `write_attribute` the server refuses is one of a given set of refused writes. The `DevFailed` text is not modelled.
- The unittest machinery (`TestCase`, `TestSuite`, `TextTestRunner`) is not modelled.
  - A test verdict is a value.
  - `Suite.Tally` counts results given as values.
  - The last lines of each failure that `__main__.py` logs are not modelled.
- The configuration of each test is a value, so the sharing of its dictionaries is not modelled. The core backend keeps the test's own `acq_params` and `saving_params` objects as `_AcqConfig` and `_SavingConfig` (LimaTestSuite/LimaDetector.py:76-77), and its two setters `.update()` them (lines 117 and 129). The previous revision's setters write only to the controller (LimaTestSuite/LimaCCDDetector.py:187-237).
- CoreDetector.LimaCoreDetector.SetAcqParameters: the source also changes the test's `acq_params` dictionary, through the reference the detector shares; the model changes only the detector's copy. Nothing in the core calls this setter or reads the test's dictionary after building the detector.
- CoreDetector.LimaCoreDetector.SetSavingParameters: the source also changes the test's `saving_params` dictionary, through the reference the detector shares; the model changes only the detector's copy, for the same reason.
- The root getters return copies. Because configurations are values, the model needs no copying.
- Config.LimaTestParser.LoadTest: one date stamp is given for the whole load, while the source reads the clock once per test folder.
- Config.DefaultSpec: the default test's `host` and `port` are kept as the option text. The source passes them to `eval`, whose result, and whose `NameError` or `SyntaxError` on text that is not a Python expression, are not modelled.
- Config.LimaTestParser.LoadDefaultTest: does not fail on a `host` or `port` that `eval` rejects, for the same reason.
- Config.LimaTestParser.Load: does not fail on a `host` or `port` that `eval` rejects, since it runs `LoadDefaultTest`.
- Common.IsFloatText: text with leading or trailing white space, which `float` strips, is not accepted. `ConfigParser` already strips it from every option value.
- The `RuntimeError` of a failing command carries the command's own exception. The model records only the command (`Errored`, `CommandFailure`).
- `Exhausted`, `Unfinished` and every "script ran out" branch exist only because the script is finite. The source has no such outcome.
- LimaTestCase.LimaCCDAcquisitionTest.RunTest: requires the configured number of frames to be an integer. With any other value the source raises a `TypeError` in the subtraction, which is not modelled.
- CcdDetector.LimaDetector.Start: requires the configured number of frames to be an integer, for the same reason.
- CcdTestCase.LimaCCDAcquisitionTest.RunTest: requires the configured number of frames to be an integer, for the same reason.
- LegacyDetector.LimaDetector.Start: requires the configured number of frames to be an integer.
  - It also requires, when a viewer is connected, that the saving parameters hold string `directory`, `prefix` and `suffix` values. Otherwise the source raises while building a file name, and that path is not modelled.
- LegacyTestCase.LimaCCDAquisitionTest.RunTest: the same two requirements, since it runs `Start`.
- LegacyDetector.LimaDetector.GetLastFilename:
  - `get_last_filename` calls `self.ct_save()` where the saving object is meant, which raises a `TypeError` (see Findings). The method reads the saving parameters as intended; the raise is modelled by `LegacyDetector.WatchAsWritten`.
  - It requires the three name parameters to be strings.
- LegacyDetector.StartSpec: models `start` with a working `get_last_filename`, the corrected half of the `ct_save` finding. With a viewer, `start` as written raises at the first new saved counter instead (`LegacyDetector.StartAsWritten`).
- LegacyDetector.WatchStep: the notifying branch is that of the corrected `get_last_filename`; as written that branch raises (`LegacyDetector.WatchAsWritten`).
- LegacyDetector.WatchExits: states the exits of the corrected loop. As written, with a viewer, the loop can also end with the `TypeError`, as `LegacyDetector.AsWrittenUntilNotice` states.
- LegacyDetector.StartEnds: states the ends of the corrected `start`. As written, with a viewer, `start` can also end with the `TypeError` (`LegacyDetector.StartAsWrittenRaises`).
- LegacyDetector.LimaDetector.Step: runs the corrected iteration, which sends the file name to the viewer.
- LegacyDetector.LimaDetector.WatchLoop: runs the corrected loop, as `Watch`.
- LegacyDetector.LimaDetector.Start: runs the corrected `start`, as `StartSpec`; as written it sends no notification at all (`LegacyDetector.StartAsWrittenRaises`).
- LegacyTestCase.LimaCCDAquisitionTest.RunTest: runs the corrected `Start`, for the same reason.
- LegacyDetector.BaseAcqDefaultsKeepLatency: of the root base defaults, only the effect of the misspelled key is stated. What each of the other literal defaults translates to is not proved.
- The root test case's `host`, `port` and `output_info` are not modelled, and neither is its `tearDown`, which only logs.
- `__main__.py` imports `LimaCCDAquisitionTest` from `LimaCCDTestCase` and passes the abort flag positionally.
  - Which class is meant is not settled by the source.
  - `Suite.Dispatch` models the dispatch over any test class, with the abort flag that `__main__.py` passes.
- Failing test results are reported only in the log, which is not modelled.
- The Tango backend's `acq_status_fault_error` and `last_image_*` reads are modelled as plain attribute reads, with no properties beyond that.

## Findings

| source | as written | input that shows it | evidently intended | confidence | as-written member | corrected member |
|---|---|---|---|---|---|---|
| LimaTestSuite/LimaTestCase.py:54 | `img_idx = self.detector.frames - 1`, while the core backend's `frames` is already `acqNbFrames - 1` (LimaTestSuite/LimaDetector.py:260-261). The loop therefore stops when image `acqNbFrames - 2` is saved. | ten frames; the script reads image 8 as the last one saved, then Ready: the run passes, though image 9 was never saved | wait for the last image, `acqNbFrames - 1`, as the previous revision does (LimaTestSuite/LimaCCDDetector.py:262) | medium, not executed | LimaTestCase.RunAsWritten, LimaTestCase.TenFramesPassEarly, LimaTestCase.AsWrittenPassesEarly, LimaTestCase.LimaCCDAcquisitionTest.RunTest | LimaTestCase.RunSpec, LimaTestCase.RunPassesSaved |
| LimaCCDDetector.py:273 | `get_last_filename` calls `self.ct_save()`, but `self.ct_save` is the saving object `self.ct.saving()` (LimaCCDDetector.py:131), which is not callable | a viewer is connected and the first saved counter read in the loop is beyond -1: two frames, counters 0, 1, 1 | read `self.ct_save.getParameters()` and send the file name of the image just saved | medium, not executed | LegacyDetector.StartAsWritten, LegacyDetector.ViewerStartRaises | LegacyDetector.StartSpec, LegacyDetector.LimaDetector.Start |
