/** The oldest CCD acquisition test, `LimaCCDAquisitionTest` of the
    repository's root `LimaCCDTestCase.py`. Its constructor builds the
    detector `<detector name>Detector` once; `setUp` writes the test's
    acquisition and then its saving parameters and prepares the
    acquisition; `runTest` runs the detector's `start()`, which raises
    nothing of its own. */
module LegacyTestCase {
  import opened Common
  import opened LimaCore
  import opened Monitor
  import opened Translate
  import opened Lookup
  import opened LegacyConfig
  import LegacyDetector

  /** The name of the plugin module and class to load for `config`. */
  function PluginName(config: LegacySettings): (n: string)
    ensures |n| == |config.detector| + 8 && n[..|config.detector|] == config.detector &&
            n[|config.detector|..] == "Detector"
  {
    config.detector + "Detector"
  }

  class LimaCCDAquisitionTest {
    const testConfig: LegacySettings
    const name: string
    /** `det_name + 'Detector'`: the plugin the detector loads. */
    const detName: string
    const detector: LegacyDetector.LimaDetector

    /** The fields of `LimaCCDAquisitionTest(config, host, port,
        adxv_host, debug)` once its detector is built. */
    constructor (config: LegacySettings, detector: LegacyDetector.LimaDetector)
      ensures testConfig == config && name == config.name && detName == PluginName(config)
      ensures this.detector == detector
    {
      testConfig := config;
      name := config.name;
      detName := PluginName(config);
      this.detector := detector;
    }

    /** `setUp`: the acquisition parameters, the saving parameters, then
        `prepare_acq`, each reached only when the one before did not
        raise. */
    method SetUp() returns (ok: bool)
      modifies detector.ct`acqPars, detector.ct`savingPars, detector.ct`log
      ensures var ct := detector.ct;
              var ua := Updated(LegacyTables, testConfig.acqDefaults, old(ct.acqPars));
              var us := Updated(LegacyTables, testConfig.savingDefaults, old(ct.savingPars));
              (ua.None? ==>
                 !ok && ct.log == old(ct.log) && ct.acqPars == old(ct.acqPars) && ct.savingPars == old(ct.savingPars)) &&
              (ua.Some? && us.None? ==>
                 !ok && ct.log == old(ct.log) + [SetAcqPars(ua.value)] &&
                 ct.acqPars == ua.value && ct.savingPars == old(ct.savingPars)) &&
              (ua.Some? && us.Some? ==>
                 (ok <==> Prepare !in ct.faulty) &&
                 ct.log == old(ct.log) + [SetAcqPars(ua.value), SetSavingPars(us.value), Call(Prepare)] &&
                 ct.acqPars == ua.value && ct.savingPars == us.value)
    {
      ok := detector.UpdateAcqParams(testConfig.acqDefaults);
      if !ok {
        return;
      }
      ok := detector.UpdateSavingParams(testConfig.savingDefaults);
      if !ok {
        return;
      }
      ok := detector.PrepareAcq();
    }

    /** `runTest`: `start()`. */
    method RunTest() returns (outcome: Outcome, ghost sends: seq<LegacyDetector.Send>)
      requires detector.ct.AcqNbFrames().Some?
      requires detector.adxv != null ==> LegacyDetector.NamesOf(detector.ct.savingPars).Some?
      modifies detector.ct`trace, detector.ct`log, detector.adxv
      ensures var d := detector;
              var names := if d.adxv != null then LegacyDetector.NamesOf(old(d.ct.savingPars)) else None;
              var f := LegacyDetector.StartSpec(old(d.ct.AcqNbFrames()).value, names, old(d.ct.trace));
              outcome == f.run.outcome && sends == f.sends &&
              d.ct.log == old(d.ct.log) + f.run.events && d.ct.trace == f.run.rest &&
              (d.adxv != null ==> d.adxv.sent == old(d.adxv.sent) + LegacyDetector.SentLines(LegacyDetector.ViewerLine(names.value), f.sends))
    {
      outcome, sends := detector.Start();
    }
  }

  /** `LimaCCDAquisitionTest(config, host, port, adxv_host, debug)`: the
      detector is built on `ct`, which loading the plugin `detName` gave
      along with its defaults; no test is made when applying the defaults
      raises. */
  method NewAquisitionTest(config: LegacySettings, ct: CtControl, adxv: AdxvSocket?,
                           acqDefaults: Dict, savingDefaults: Dict)
    returns (t: LimaCCDAquisitionTest?)
    modifies ct`acqPars, ct`savingPars, ct`log
    ensures var s := Updated(LegacyTables, savingDefaults, old(ct.savingPars));
            var a := Updated(LegacyTables, acqDefaults, old(ct.acqPars));
            (t != null <==> s.Some? && a.Some?) &&
            (s.None? ==> ct.log == old(ct.log) && ct.savingPars == old(ct.savingPars) && ct.acqPars == old(ct.acqPars)) &&
            (s.Some? && a.None? ==> ct.log == old(ct.log) + [SetSavingPars(s.value)] &&
                                    ct.savingPars == s.value && ct.acqPars == old(ct.acqPars)) &&
            (t != null ==> ct.log == old(ct.log) + [SetSavingPars(s.value), SetAcqPars(a.value)] &&
                           ct.savingPars == s.value && ct.acqPars == a.value)
    ensures t != null ==> fresh(t) && t.testConfig == config && t.detName == PluginName(config) &&
                          t.detector.ct == ct && t.detector.adxv == adxv &&
                          t.detector.acqConfig == acqDefaults && t.detector.savingConfig == savingDefaults
  {
    var d := LegacyDetector.NewLegacyDetector(ct, adxv, acqDefaults, savingDefaults);
    if d == null {
      return null;
    }
    t := new LimaCCDAquisitionTest(config, d);
  }
}
