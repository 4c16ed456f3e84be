/** The CCD acquisition test of `LimaTestSuite/LimaCCDTestCase.py`: its
    `setUp` builds a `LimaDetector` of `LimaTestSuite/LimaCCDDetector.py`,
    writes the test's acquisition and then its saving parameters and
    prepares the acquisition; `runTest` runs the detector's `start(abort)`
    and turns the `RuntimeError` it raises into a test failure. */
module CcdTestCase {
  import opened Common
  import opened LimaCore
  import opened Monitor
  import opened Translate
  import opened Config
  import CcdDetector
  import LimaTestCase

  /** How a test run ends for the test runner. */
  datatype Verdict =
    | Success
      /** `self.fail(message)` on a `RuntimeError` whose text is modelled. */
    | Failure(message: string)
      /** `self.fail(...)` on the `RuntimeError` raised for a failing
          command; its text holds the command's own exception. */
    | CommandFailure(cmd: Command)
      /** The scripted snapshots ran out before the run ended. */
    | Unfinished

  /** `runTest`'s handling of what `start` did. */
  function VerdictOf(name: string, o: Outcome): Verdict {
    match o
    case Passed => Success
    case Failed(reason) => Failure(LimaTestCase.FailMessage(name, ReasonText(reason)))
    case Errored(cmd) => CommandFailure(cmd)
    case Exhausted => Unfinished
  }

  /** The test succeeds exactly when the acquisition passed, and a failure
      message names the test and ends with the reason `start` raised. */
  lemma VerdictMeaning(name: string, o: Outcome)
    ensures VerdictOf(name, o) == Success <==> o == Passed
    ensures VerdictOf(name, o).Failure? <==> o.Failed?
    ensures o.Failed? ==>
              var m := VerdictOf(name, o).message;
              m[..|name|] == name && m[|name|..|name| + 19] == " FAILED with msg = " &&
              m[|name| + 19..] == ReasonText(o.reason)
  {
    if o.Failed? {
      LimaTestCase.FailMessageShape(name, ReasonText(o.reason));
    }
  }

  /** A test that succeeds saw the detector Ready at its last status read;
      `startAcq` did not fail; and the loop left at an iteration `j` whose
      saved-image read was the target image `acqNbFrames - 1`, unless the
      test aborts, in which case it left at the first one. */
  lemma SuccessMeansReady(name: string, nbFrames: int, abort: bool, faulty: set<Command>, trace: seq<Snapshot>)
    ensures var r := CcdDetector.StartSpec(nbFrames, abort, faulty, trace);
            var k, idx := |trace| - |r.rest|, nbFrames - 1;
            VerdictOf(name, r.outcome) == Success ==>
              Command.Start !in faulty && 1 <= k && trace[k - 1].status == AcqReady &&
              exists j :: 0 <= j < k && CcdDetector.LeavesAt(idx, abort, trace, j) &&
                (!abort ==> trace[j + 1].lastSaved == idx) && (abort ==> j == 0)
  {
    CcdDetector.StartOpens(nbFrames, abort, faulty, trace);
    var idx := nbFrames - 1;
    var r := CcdDetector.StartSpec(nbFrames, abort, faulty, trace);
    if r.outcome == Passed {
      var l := CcdDetector.Loop(idx, abort, faulty, trace);
      assert l.outcome == Passed && l.rest == r.rest;
      CcdDetector.LoopPasses(idx, abort, faulty, trace);
      var j :| 0 <= j < |trace| - |r.rest| && CcdDetector.LeavesAt(idx, abort, trace, j);
      assert !CcdDetector.GoesOn(idx, true, trace, 0);
      assert abort ==> j == 0;
    }
  }

  class LimaCCDAcquisitionTest {
    const name: string
    const testConfig: Settings
    const abort: bool
    var detector: CcdDetector.LimaDetector?

    /** `LimaCCDAcquisitionTest(config, abort=False)` */
    constructor (config: Settings, abort: bool := false)
      ensures name == config.name && testConfig == config && this.abort == abort && detector == null
    {
      name := config.name;
      testConfig := config;
      this.abort := abort;
      detector := null;
    }

    /** The writes of `setUp` on the detector `d`: the acquisition
        parameters, the saving parameters, then `prepare_acq`, each reached
        only when the one before did not raise. */
    method Configure(d: CcdDetector.LimaDetector) returns (ok: bool)
      modifies d.ct`acqPars, d.ct`savingPars, d.ct`log
      ensures var ct := d.ct;
              var ua := Updated(LegacyTables, testConfig.acq, old(ct.acqPars));
              var us := Updated(LegacyTables, testConfig.saving, old(ct.savingPars));
              (ua.None? ==>
                 !ok && ct.log == old(ct.log) && ct.acqPars == old(ct.acqPars) && ct.savingPars == old(ct.savingPars)) &&
              (ua.Some? && us.None? ==>
                 !ok && ct.log == old(ct.log) + [SetAcqPars(ua.value)] &&
                 ct.acqPars == ua.value && ct.savingPars == old(ct.savingPars)) &&
              (ua.Some? && us.Some? ==>
                 (ok <==> Prepare !in ct.faulty) &&
                 ct.log == old(ct.log) + [SetAcqPars(ua.value), SetSavingPars(us.value), Call(Prepare)] &&
                 ct.acqPars == ua.value && ct.savingPars == us.value)
    {
      ok := d.UpdateAcqParams(testConfig.acq);
      if !ok {
        return;
      }
      ok := d.UpdateSavingParams(testConfig.saving);
      if !ok {
        return;
      }
      ok := d.PrepareAcq();
    }

    /** `setUp`: the saving `directory` is looked up for the log (a
        `KeyError` when it is missing); the detector is built on `ct`,
        which `init` found, and configured. */
    method SetUp(ct: CtControl) returns (ok: bool)
      modifies this`detector, ct`acqPars, ct`savingPars, ct`log
      ensures var ua := Updated(LegacyTables, testConfig.acq, old(ct.acqPars));
              var us := Updated(LegacyTables, testConfig.saving, old(ct.savingPars));
              ("directory" !in testConfig.saving ==>
                 !ok && detector == old(detector) && ct.log == old(ct.log) &&
                 ct.acqPars == old(ct.acqPars) && ct.savingPars == old(ct.savingPars)) &&
              ("directory" in testConfig.saving && ua.None? ==>
                 !ok && ct.log == old(ct.log) && ct.acqPars == old(ct.acqPars) && ct.savingPars == old(ct.savingPars)) &&
              ("directory" in testConfig.saving && ua.Some? && us.None? ==>
                 !ok && ct.log == old(ct.log) + [SetAcqPars(ua.value)] &&
                 ct.acqPars == ua.value && ct.savingPars == old(ct.savingPars)) &&
              ("directory" in testConfig.saving && ua.Some? && us.Some? ==>
                 (ok <==> Prepare !in ct.faulty) &&
                 ct.log == old(ct.log) + [SetAcqPars(ua.value), SetSavingPars(us.value), Call(Prepare)] &&
                 ct.acqPars == ua.value && ct.savingPars == us.value)
      ensures "directory" in testConfig.saving ==>
                detector != null && fresh(detector) && detector.ct == ct &&
                detector.acqConfig == testConfig.acq && detector.savingConfig == testConfig.saving
    {
      if "directory" !in testConfig.saving {
        return false;
      }
      var d := new CcdDetector.LimaDetector(ct, testConfig.acq, testConfig.saving);
      detector := d;
      ok := Configure(d);
    }

    /** `runTest`: `start(abort)`, with its `RuntimeError` made a failure. */
    method RunTest() returns (verdict: Verdict)
      requires detector != null && detector.ct.AcqNbFrames().Some?
      modifies detector.ct`trace, detector.ct`log
      ensures var r := CcdDetector.StartSpec(old(detector.ct.AcqNbFrames()).value, abort, detector.ct.faulty,
                                              old(detector.ct.trace));
              verdict == VerdictOf(name, r.outcome) &&
              detector.ct.log == old(detector.ct.log) + r.events && detector.ct.trace == r.rest
    {
      var outcome := detector.Start(abort);
      match outcome
      case Passed => verdict := Success;
      case Failed(reason) => verdict := Failure(LimaTestCase.FailMessage(name, ReasonText(reason)));
      case Errored(cmd) => verdict := CommandFailure(cmd);
      case Exhausted => verdict := Unfinished;
    }

    /** `tearDown`: `del self.detector`. */
    method TearDown()
      modifies this`detector
      ensures detector == null
    {
      detector := null;
    }
  }
}
