/** The local backend of the current suite, `LimaCoreDetector`
    (`LimaTestSuite/LimaDetector.py`): it drives a Lima Core control object,
    writes the acquisition and then the saving configuration to it, and
    answers the monitor's queries each with a fresh `getStatus()`. */
module CoreDetector {
  import opened Common
  import opened LimaCore
  import opened Translate

  /** The entries `set_acq_parameters` puts into the acquisition
      configuration. */
  function AcqParameters(expTime: Value, frames: Value, latency: Value, trigger: Value, acqMode: Value): (d: Dict)
    ensures d.Keys == {"acqExpoTime", "acqNbFrames", "acqMode", "triggerMode", "latencyTime"}
    ensures d["acqExpoTime"] == expTime && d["acqNbFrames"] == frames && d["latencyTime"] == latency
    ensures d["triggerMode"] == trigger && d["acqMode"] == acqMode
  {
    map["acqExpoTime" := expTime, "acqNbFrames" := frames, "acqMode" := acqMode,
        "triggerMode" := trigger, "latencyTime" := latency]
  }

  /** The default arguments of `set_acq_parameters`. */
  const DefaultLatency := Int(0)
  const DefaultTrigger := Str("Internal")
  const DefaultAcqMode := Str("single")

  /** The entries `set_saving_parameters` puts into the saving
      configuration; the format goes under `"fileFormat "`, with a trailing
      space. */
  function SavingParameters(directory: Value, prefix: Value, suffix: Value, format: Value,
                            mode: Value, overwrite: Value): (d: Dict)
    ensures d.Keys == {"directory", "prefix", "suffix", "fileFormat ", "savingMode", "overwritePolicy"}
    ensures "fileFormat" !in d && d["fileFormat "] == format
    ensures d["directory"] == directory && d["prefix"] == prefix && d["suffix"] == suffix
    ensures d["savingMode"] == mode && d["overwritePolicy"] == overwrite
  {
    map["directory" := directory, "prefix" := prefix, "suffix" := suffix, "fileFormat " := format,
        "savingMode" := mode, "overwritePolicy" := overwrite]
  }

  /** The default arguments of `set_saving_parameters`. */
  const DefaultSavingMode := Str("auto_frame")
  const DefaultOverwrite := Str("overwrite")

  /** What one `write_config_hw` leaves in the controller: whether it
      completed, the two parameter structures and the events it logged. */
  datatype HwWrite = HwWrite(ok: bool, acqPars: Dict, savingPars: Dict, events: seq<Event>)

  /** `write_config_hw` from the current parameters of the controller: the
      acquisition structure is read, updated and written back, then the
      saving one. A configuration value its table does not know raises
      before the structure it belongs to is written back. */
  function WriteConfig(tables: Tables, acqConfig: Dict, savingConfig: Dict, acqPars: Dict, savingPars: Dict)
    : (w: HwWrite)
    ensures w.ok <==> Updated(tables, acqConfig, acqPars).Some? && Updated(tables, savingConfig, savingPars).Some?
    ensures Updated(tables, acqConfig, acqPars).None? ==>
              w.events == [] && w.acqPars == acqPars && w.savingPars == savingPars
    ensures Updated(tables, acqConfig, acqPars).Some? ==>
              w.acqPars == Updated(tables, acqConfig, acqPars).value && |w.events| >= 1 && w.events[0] == SetAcqPars(w.acqPars)
    ensures !w.ok ==> w.savingPars == savingPars && |w.events| <= 1
    ensures w.ok ==> w.events == [SetAcqPars(w.acqPars), SetSavingPars(w.savingPars)]
    ensures forall k :: k in acqPars && k !in acqConfig ==> k in w.acqPars && w.acqPars[k] == acqPars[k]
    ensures forall k :: k in savingPars && k !in savingConfig ==> k in w.savingPars && w.savingPars[k] == savingPars[k]
  {
    match Updated(tables, acqConfig, acqPars)
    case None => HwWrite(false, acqPars, savingPars, [])
    case Some(a) =>
      UpdatedKeepsOthers(tables, acqConfig, acqPars);
      match Updated(tables, savingConfig, savingPars)
      case None => HwWrite(false, a, savingPars, [SetAcqPars(a)])
      case Some(s) =>
        UpdatedKeepsOthers(tables, savingConfig, savingPars);
        HwWrite(true, a, s, [SetAcqPars(a), SetSavingPars(s)])
  }

  class LimaCoreDetector {
    /** `self.ct` with its `ct_acq` and `ct_save`, as the plugin built it. */
    const ct: CtControl
    /** The `_<ConstantName>` tables of the detector object. */
    const tables: Tables
    /** `_AcqConfig` and `_SavingConfig`. */
    var acqConfig: Dict
    var savingConfig: Dict

    /** The part of `__init__` before `write_config_hw`: the tables and the
        test's configuration dictionaries; `init_hw` found `ct`. */
    constructor (ct: CtControl, acq: Dict, saving: Dict)
      ensures this.ct == ct && tables == CurrentTables && acqConfig == acq && savingConfig == saving
    {
      this.ct := ct;
      tables := CurrentTables;
      acqConfig := acq;
      savingConfig := saving;
    }

    /** `write_config_hw` */
    method WriteConfigHw() returns (ok: bool)
      modifies ct`acqPars, ct`savingPars, ct`log
      ensures var w := WriteConfig(tables, acqConfig, savingConfig, old(ct.acqPars), old(ct.savingPars));
              ok == w.ok && ct.acqPars == w.acqPars && ct.savingPars == w.savingPars &&
              ct.log == old(ct.log) + w.events
    {
      var acq := ct.GetPars();
      var a := UpdateConfigFromDict(tables, acqConfig, acq);
      if a.None? {
        return false;
      }
      ct.SetPars(a.value);
      var saving := ct.GetParameters();
      var s := UpdateConfigFromDict(tables, savingConfig, saving);
      if s.None? {
        return false;
      }
      ct.SetParameters(s.value);
      ok := true;
    }

    /** `set_acq_parameters(exp_time, frames, latency=0, trigger='Internal',
        acq_mode='single')`:
        updates the acquisition configuration, then rewrites the hardware. */
    method SetAcqParameters(expTime: Value, frames: Value, latency: Value := DefaultLatency,
                            trigger: Value := DefaultTrigger, acqMode: Value := DefaultAcqMode)
      returns (ok: bool)
      modifies this`acqConfig, ct`acqPars, ct`savingPars, ct`log
      ensures acqConfig == old(acqConfig) + AcqParameters(expTime, frames, latency, trigger, acqMode)
      ensures var w := WriteConfig(tables, acqConfig, savingConfig, old(ct.acqPars), old(ct.savingPars));
              ok == w.ok && ct.acqPars == w.acqPars && ct.savingPars == w.savingPars &&
              ct.log == old(ct.log) + w.events
    {
      acqConfig := acqConfig + AcqParameters(expTime, frames, latency, trigger, acqMode);
      ok := WriteConfigHw();
    }

    /** `set_saving_parameters(directory, prefix, suffix, img_format,
        mode='auto_frame', overwrite='overwrite')`: updates the saving configuration, then rewrites the
        hardware. */
    method SetSavingParameters(directory: Value, prefix: Value, suffix: Value, format: Value,
                               mode: Value := DefaultSavingMode, overwrite: Value := DefaultOverwrite)
      returns (ok: bool)
      modifies this`savingConfig, ct`acqPars, ct`savingPars, ct`log
      ensures savingConfig == old(savingConfig) + SavingParameters(directory, prefix, suffix, format, mode, overwrite)
      ensures var w := WriteConfig(tables, acqConfig, savingConfig, old(ct.acqPars), old(ct.savingPars));
              ok == w.ok && ct.acqPars == w.acqPars && ct.savingPars == w.savingPars &&
              ct.log == old(ct.log) + w.events
    {
      savingConfig := savingConfig + SavingParameters(directory, prefix, suffix, format, mode, overwrite);
      ok := WriteConfigHw();
    }

    /** `frames`: one less than the controller's frame count. */
    function Frames(): (r: Option<int>)
      reads ct
      ensures r.Some? <==> "acqNbFrames" in ct.acqPars && ct.acqPars["acqNbFrames"].Int?
      ensures r.Some? ==> r.value + 1 == ct.acqPars["acqNbFrames"].i
    {
      match ct.AcqNbFrames()
      case Some(n) => Some(n - 1)
      case None => None
    }

    /** `prepare_acq()` */
    method PrepareAcq() returns (ok: bool)
      modifies ct`log
      ensures ct.log == old(ct.log) + [Call(Prepare)] && (ok <==> Prepare !in ct.faulty)
    {
      ok := ct.PrepareAcq();
    }

    /** `start()` */
    method Start() returns (ok: bool)
      modifies ct`log
      ensures ct.log == old(ct.log) + [Call(Command.Start)] && (ok <==> Command.Start !in ct.faulty)
    {
      ok := ct.StartAcq();
    }

    /** `stop()` */
    method Stop() returns (ok: bool)
      modifies ct`log
      ensures ct.log == old(ct.log) + [Call(Command.Stop)] && (ok <==> Command.Stop !in ct.faulty)
    {
      ok := ct.StopAcq();
    }

    /** `status`: `ct.Status()` */
    method Status() returns (ok: bool)
      modifies ct`log
      ensures ct.log == old(ct.log) + [Call(StatusQuery)] && (ok <==> StatusQuery !in ct.faulty)
    {
      ok := ct.Status();
    }

    /** `last_image`: `LastImageAcquired` of a fresh status. */
    method LastImage() returns (r: Option<int>)
      modifies ct`trace, ct`log
      ensures old(ct.trace) == [] ==> r.None? && ct.trace == [] && ct.log == old(ct.log)
      ensures old(ct.trace) != [] ==> r == Some(old(ct.trace)[0].lastAcquired) && ct.trace == old(ct.trace)[1..] &&
                                      ct.log == old(ct.log) + [Poll(old(ct.trace)[0])]
    {
      var s := ct.GetStatus();
      r := if s.Some? then Some(s.value.lastAcquired) else None;
    }

    /** `last_image_saved`: `LastImageSaved` of a fresh status. */
    method LastImageSaved() returns (r: Option<int>)
      modifies ct`trace, ct`log
      ensures old(ct.trace) == [] ==> r.None? && ct.trace == [] && ct.log == old(ct.log)
      ensures old(ct.trace) != [] ==> r == Some(old(ct.trace)[0].lastSaved) && ct.trace == old(ct.trace)[1..] &&
                                      ct.log == old(ct.log) + [Poll(old(ct.trace)[0])]
    {
      var s := ct.GetStatus();
      r := if s.Some? then Some(s.value.lastSaved) else None;
    }

    /** `acq_status`: `AcquisitionStatus` of a fresh status. */
    method AcqStatus() returns (r: Option<AcqStatus>)
      modifies ct`trace, ct`log
      ensures old(ct.trace) == [] ==> r.None? && ct.trace == [] && ct.log == old(ct.log)
      ensures old(ct.trace) != [] ==> r == Some(old(ct.trace)[0].status) && ct.trace == old(ct.trace)[1..] &&
                                      ct.log == old(ct.log) + [Poll(old(ct.trace)[0])]
    {
      var s := ct.GetStatus();
      r := if s.Some? then Some(s.value.status) else None;
    }
  }

  /** `LimaCoreDetector(config)`: builds the detector and writes the
      configuration to the hardware once. When that raises, no detector is
      given. */
  method NewLimaCoreDetector(ct: CtControl, acq: Dict, saving: Dict) returns (d: LimaCoreDetector?)
    modifies ct`acqPars, ct`savingPars, ct`log
    ensures var w := WriteConfig(CurrentTables, acq, saving, old(ct.acqPars), old(ct.savingPars));
            (d != null <==> w.ok) && ct.acqPars == w.acqPars && ct.savingPars == w.savingPars &&
            ct.log == old(ct.log) + w.events
    ensures d != null ==> fresh(d) && d.ct == ct && d.tables == CurrentTables &&
                          d.acqConfig == acq && d.savingConfig == saving
  {
    var det := new LimaCoreDetector(ct, acq, saving);
    var ok := det.WriteConfigHw();
    d := if ok then det else null;
  }

  /** The acquisition setter replaces exactly its five entries of the
      configuration and keeps every other one. */
  lemma SetAcqKeepsOthers(config: Dict, expTime: Value, frames: Value, latency: Value, trigger: Value, acqMode: Value)
    ensures var c := config + AcqParameters(expTime, frames, latency, trigger, acqMode);
            c.Keys == config.Keys + {"acqExpoTime", "acqNbFrames", "acqMode", "triggerMode", "latencyTime"} &&
            c["acqNbFrames"] == frames &&
            forall k :: k in config && k !in {"acqExpoTime", "acqNbFrames", "acqMode", "triggerMode", "latencyTime"} ==>
                          c[k] == config[k]
  {
  }

  /** The saving setter leaves the `fileFormat` entry as it was, and its own
      format entry reaches the hardware untranslated. */
  lemma SetSavingKeepsFormat(config: Dict, directory: Value, prefix: Value, suffix: Value, format: Value,
                             mode: Value, overwrite: Value)
    ensures var c := config + SavingParameters(directory, prefix, suffix, format, mode, overwrite);
            ("fileFormat" in c <==> "fileFormat" in config) &&
            ("fileFormat" in config ==> c["fileFormat"] == config["fileFormat"]) &&
            c["fileFormat "] == format && TranslateValue(CurrentTables, "fileFormat ", format) == Some(format)
  {
    TrailingSpaceFormatKeyIsNotTranslated(format);
  }
}
