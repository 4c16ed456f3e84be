/** The current acquisition monitor, `LimaCCDAcquisitionTest.runTest`
    (`LimaTestSuite/LimaTestCase.py`), over the core backend. It prepares and
    starts the acquisition, then repeats: read the last acquired image, the
    last saved image and the status (three fresh `getStatus()` calls); stop
    when the saved image is the target; on abort stop and re-prepare; fail
    when the detector is Ready too early; otherwise wait a frame period and
    poll up to five times for Ready. After the loop one more status read
    must be Ready. */
module LimaTestCase {
  import opened Common
  import opened LimaCore
  import opened Monitor
  import opened CoreDetector
  import opened Config
  import opened Translate

  /** `LimaCCDBaseTestCase.fail(msg)`: the message the test fails with. */
  function FailMessage(name: string, msg: string): string {
    name + " FAILED with msg = " + msg
  }

  /** Every failure message names the test first and ends with the reason. */
  lemma FailMessageShape(name: string, msg: string)
    ensures var m := FailMessage(name, msg);
            |m| == |name| + 19 + |msg| && m[..|name|] == name &&
            m[|name|..|name| + 19] == " FAILED with msg = " && m[|name| + 19..] == msg
  {
  }

  /** The check after the loop: one fresh status read, which must be Ready;
      the failure reports `status`, the status read in the last iteration. */
  function FinalCheck(trace: seq<Snapshot>, status: AcqStatus): Run {
    if trace == [] then Run(Exhausted, [], [])
    else if trace[0].status == AcqReady then Run(Passed, [Poll(trace[0])], trace[1..])
    else Run(Failed(NotReady(StatusCode(status))), [Poll(trace[0])], trace[1..])
  }

  /** The abort branch: `stop()`, two seconds, `prepare_acq()`, two seconds,
      a status read for the debug log, then the check after the loop. */
  function AbortPath(faulty: set<Command>, trace: seq<Snapshot>, status: AcqStatus): Run {
    if Command.Stop in faulty then Run(Errored(Command.Stop), [Call(Command.Stop)], trace)
    else if Prepare in faulty then
      Run(Errored(Prepare), [Call(Command.Stop), Slept(Seconds(2)), Call(Prepare)], trace)
    else if trace == [] then
      Run(Exhausted, [Call(Command.Stop), Slept(Seconds(2)), Call(Prepare), Slept(Seconds(2))], [])
    else
      Then([Call(Command.Stop), Slept(Seconds(2)), Call(Prepare), Slept(Seconds(2)), Poll(trace[0])],
           FinalCheck(trace[1..], status))
  }

  /** One iteration of the `while True` loop, with target image `idx`, from
      the snapshots `trace` on, and the rest of the loop after it. */
  function Iteration(idx: int, abort: bool, faulty: set<Command>, trace: seq<Snapshot>): Run
    requires |trace| >= 3
    decreases |trace|, 0
  {
    var polls := [Poll(trace[0]), Poll(trace[1]), Poll(trace[2])];
    var saved, status, t := trace[1].lastSaved, trace[2].status, trace[3..];
    if saved == idx then Then(polls, FinalCheck(t, status))
    else if abort then Then(polls, AbortPath(faulty, t, status))
    else if status == AcqReady then Run(Failed(ReadyIncomplete), polls, t)
    else
      var st := Settle(t, 5);
      if st.ended then Run(Exhausted, polls + [Slept(CycleTime)] + st.events, [])
      else Then(polls + [Slept(CycleTime)] + st.events, Watch(idx, abort, faulty, st.rest))
  }

  /** The `while True` loop from the snapshots `trace` on. */
  function Watch(idx: int, abort: bool, faulty: set<Command>, trace: seq<Snapshot>): Run
    decreases |trace|, 1
  {
    if |trace| < 3 then Run(Exhausted, PollAll(trace), [])
    else Iteration(idx, abort, faulty, trace)
  }

  /** `runTest` with `nbFrames` images configured, waiting for the last
      one, index `nbFrames - 1`, to be saved. */
  function RunSpec(nbFrames: int, abort: bool, faulty: set<Command>, trace: seq<Snapshot>): Run {
    if Prepare in faulty then Run(Errored(Prepare), [Call(Prepare)], trace)
    else if Command.Start in faulty then Run(Errored(Command.Start), [Call(Prepare), Call(Command.Start)], trace)
    else Then([Call(Prepare), Call(Command.Start)], Watch(nbFrames - 1, abort, faulty, trace))
  }

  /** `runTest` as written: `img_idx = self.detector.frames - 1`, where the
      core backend's `frames` is already `acqNbFrames - 1`, so the loop
      waits for image `nbFrames - 2`. */
  function RunAsWritten(nbFrames: int, abort: bool, faulty: set<Command>, trace: seq<Snapshot>): (r: Run)
    ensures Prepare !in faulty && Command.Start !in faulty ==>
              r == Then([Call(Prepare), Call(Command.Start)], Watch(nbFrames - 2, abort, faulty, trace))
  {
    RunSpec(nbFrames - 1, abort, faulty, trace)
  }

  /** What a passing run `r` of the loop has read, position by position,
      with `k` the number of snapshots it consumed: the last one is Ready,
      after the three reads of the iteration that left the loop. Without
      abort that iteration's saved-image read, three before the end, is the
      target. An abort test leaves at its first iteration: at the target
      after four reads, or short of it after the abort's debug read, five
      reads in all. */
  predicate PassedAt(idx: int, abort: bool, trace: seq<Snapshot>, r: Run) {
    r.outcome == Passed ==>
      var k := |trace| - |r.rest|;
      4 <= k && trace[k - 1].status == AcqReady &&
      (!abort ==> trace[k - 3].lastSaved == idx) &&
      (abort ==> (k == 4 && trace[1].lastSaved == idx) || (k == 5 && trace[1].lastSaved != idx))
  }

  /** A run that passes saw its last status read Ready and, without abort,
      left the loop in an iteration whose saved-image read was the last
      image, `nbFrames - 1`. */
  lemma RunPassesSaved(nbFrames: int, abort: bool, faulty: set<Command>, trace: seq<Snapshot>)
    ensures PassedAt(nbFrames - 1, abort, trace, RunSpec(nbFrames, abort, faulty, trace))
  {
    if Prepare !in faulty && Command.Start !in faulty {
      WatchPasses(nbFrames - 1, abort, faulty, trace);
    }
  }

  /** As written, a run that passes without abort left the loop on a
      saved-image read of image `nbFrames - 2`. */
  lemma AsWrittenPassesEarly(nbFrames: int, abort: bool, faulty: set<Command>, trace: seq<Snapshot>)
    ensures PassedAt(nbFrames - 2, abort, trace, RunAsWritten(nbFrames, abort, faulty, trace))
  {
    RunPassesSaved(nbFrames - 1, abort, faulty, trace);
  }

  lemma FinalReads(trace: seq<Snapshot>, status: AcqStatus)
    ensures ReadsInOrder(trace, FinalCheck(trace, status))
  {
    if trace != [] {
      PolledOne(Poll(trace[0]));
      assert trace[..1] == [trace[0]];
    }
  }

  /** The abort branch reads in order. */
  lemma AbortReads(faulty: set<Command>, trace: seq<Snapshot>, status: AcqStatus)
    ensures ReadsInOrder(trace, AbortPath(faulty, trace, status))
  {
    var quiet := [Call(Command.Stop), Slept(Seconds(2)), Call(Prepare), Slept(Seconds(2))];
    if Command.Stop in faulty {
      PolledOne(Call(Command.Stop));
    } else if Prepare in faulty {
      PolledNone([Call(Command.Stop), Slept(Seconds(2)), Call(Prepare)]);
    } else if trace == [] {
      PolledNone(quiet);
    } else {
      AbortReadsOn(trace, status);
    }
  }

  /** The reads of an abort branch whose commands succeed: the debug read,
      then the check after the loop. */
  lemma AbortReadsOn(trace: seq<Snapshot>, status: AcqStatus)
    requires trace != []
    ensures ReadsInOrder(trace, Then([Call(Command.Stop), Slept(Seconds(2)), Call(Prepare), Slept(Seconds(2)), Poll(trace[0])],
                                     FinalCheck(trace[1..], status)))
  {
    var quiet := [Call(Command.Stop), Slept(Seconds(2)), Call(Prepare), Slept(Seconds(2))];
    PolledNone(quiet);
    PolledOne(Poll(trace[0]));
    PolledAppend(quiet, [Poll(trace[0])]);
    assert quiet + [Poll(trace[0])] == [Call(Command.Stop), Slept(Seconds(2)), Call(Prepare), Slept(Seconds(2)), Poll(trace[0])];
    assert trace[..1] == [trace[0]];
    FinalReads(trace[1..], status);
    ThenReads(quiet + [Poll(trace[0])], trace, 1, FinalCheck(trace[1..], status));
  }

  /** The reads of an iteration that goes on: three, then the settle loop. */
  lemma ContinueReads(trace: seq<Snapshot>)
    requires |trace| >= 3
    ensures var st := Settle(trace[3..], 5);
            Polled([Poll(trace[0]), Poll(trace[1]), Poll(trace[2])] + [Slept(CycleTime)] + st.events) ==
            trace[..3 + SettleReads(trace[3..], 5)]
  {
    var t := trace[3..];
    var polls := [Poll(trace[0]), Poll(trace[1]), Poll(trace[2])];
    var k := SettleReads(t, 5);
    SettleBound(t, 5);
    SettlePolls(t, 5);
    PolledTriple(trace);
    PolledOne(Slept(CycleTime));
    PolledAppend(polls, [Slept(CycleTime)]);
    PolledAppend(polls + [Slept(CycleTime)], Settle(t, 5).events);
    assert trace[..3 + k] == trace[..3] + t[..k];
  }

  /** The loop reads the snapshots in order and skips none. */
  lemma {:induction false} WatchReadsInOrder(idx: int, abort: bool, faulty: set<Command>, trace: seq<Snapshot>)
    ensures ReadsInOrder(trace, Watch(idx, abort, faulty, trace))
    decreases |trace|
  {
    if |trace| < 3 {
      PolledPollAll(trace);
    } else {
      var t := trace[3..];
      var polls := [Poll(trace[0]), Poll(trace[1]), Poll(trace[2])];
      var saved, status := trace[1].lastSaved, trace[2].status;
      PolledTriple(trace);
      if saved == idx {
        FinalReads(t, status);
        ThenReads(polls, trace, 3, FinalCheck(t, status));
      } else if abort {
        AbortReads(faulty, t, status);
        ThenReads(polls, trace, 3, AbortPath(faulty, t, status));
      } else if status == AcqReady {
        assert trace[|trace| - |t|..] == t;
      } else {
        var st := Settle(t, 5);
        if !st.ended {
          WatchReadsInOrder(idx, abort, faulty, st.rest);
        }
        ContinueReadsInOrder(idx, abort, faulty, trace);
      }
    }
  }

  /** An iteration that goes on reads in order when the rest of the loop
      does. */
  lemma ContinueReadsInOrder(idx: int, abort: bool, faulty: set<Command>, trace: seq<Snapshot>)
    requires |trace| >= 3 && trace[1].lastSaved != idx && !abort && trace[2].status != AcqReady
    requires var st := Settle(trace[3..], 5);
             !st.ended ==> ReadsInOrder(st.rest, Watch(idx, abort, faulty, st.rest))
    ensures ReadsInOrder(trace, Watch(idx, abort, faulty, trace))
  {
    var t := trace[3..];
    var polls := [Poll(trace[0]), Poll(trace[1]), Poll(trace[2])];
    var st := Settle(t, 5);
    var k := SettleReads(t, 5);
    SettleBound(t, 5);
    SettleStops(t, 5);
    ContinueReads(trace);
    var evs := polls + [Slept(CycleTime)] + st.events;
    if st.ended {
      assert t[k..] == [];
    } else {
      assert trace[3 + k..] == st.rest;
      ThenReads(evs, trace, 3 + k, Watch(idx, abort, faulty, st.rest));
    }
  }

  /** An iteration that goes on passes only as the rest of the loop does. */
  lemma ContinuePasses(idx: int, abort: bool, faulty: set<Command>, trace: seq<Snapshot>)
    requires |trace| >= 3 && trace[1].lastSaved != idx && !abort && trace[2].status != AcqReady
    requires var st := Settle(trace[3..], 5);
             !st.ended ==> PassedAt(idx, abort, st.rest, Watch(idx, abort, faulty, st.rest))
    ensures PassedAt(idx, abort, trace, Watch(idx, abort, faulty, trace))
  {
    var t := trace[3..];
    var st := Settle(t, 5);
    SettleBound(t, 5);
    if !st.ended {
      var w := Watch(idx, abort, faulty, st.rest);
      var r := Watch(idx, abort, faulty, trace);
      assert r == Iteration(idx, abort, faulty, trace);
      assert r.outcome == w.outcome && r.rest == w.rest;
      if w.outcome == Passed {
        var off := |trace| - |st.rest|;
        var k' := |st.rest| - |w.rest|;
        assert st.rest == trace[off..];
        assert trace[off + k' - 1] == st.rest[k' - 1] && trace[off + k' - 3] == st.rest[k' - 3];
      }
    }
  }

  /** The monitor passes a run only after a final Ready read, and without
      abort only when the iteration that left the loop read the target as
      the last saved image. */
  lemma {:induction false} WatchPasses(idx: int, abort: bool, faulty: set<Command>, trace: seq<Snapshot>)
    ensures PassedAt(idx, abort, trace, Watch(idx, abort, faulty, trace))
    decreases |trace|
  {
    if |trace| >= 3 && trace[1].lastSaved != idx && !abort && trace[2].status != AcqReady {
      var st := Settle(trace[3..], 5);
      if !st.ended {
        WatchPasses(idx, abort, faulty, st.rest);
      }
      ContinuePasses(idx, abort, faulty, trace);
    } else if |trace| >= 3 && trace[1].lastSaved == idx {
      assert Watch(idx, abort, faulty, trace) == Then([Poll(trace[0]), Poll(trace[1]), Poll(trace[2])], FinalCheck(trace[3..], trace[2].status));
    } else if |trace| >= 3 && abort {
      assert Watch(idx, abort, faulty, trace) == Then([Poll(trace[0]), Poll(trace[1]), Poll(trace[2])], AbortPath(faulty, trace[3..], trace[2].status));
    }
  }

  /** The loop issues a command only when it aborts, and then only `stop`
      and `prepare_acq`. */
  lemma {:induction false} WatchCommands(idx: int, abort: bool, faulty: set<Command>, trace: seq<Snapshot>)
    ensures forall e :: e in Watch(idx, abort, faulty, trace).events && e.Call? ==>
              abort && (e.cmd == Command.Stop || e.cmd == Prepare)
    decreases |trace|
  {
    if |trace| >= 3 && trace[1].lastSaved != idx && !abort && trace[2].status != AcqReady {
      var st := Settle(trace[3..], 5);
      SettleQuiet(trace[3..], 5);
      if !st.ended {
        WatchCommands(idx, abort, faulty, st.rest);
      }
    }
  }

  /** `runTest` first prepares, then starts; a command that raises ends the
      run before any status read. */
  lemma RunOpens(nbFrames: int, abort: bool, faulty: set<Command>, trace: seq<Snapshot>)
    ensures var r := RunSpec(nbFrames, abort, faulty, trace);
            |r.events| >= 1 && r.events[0] == Call(Prepare) &&
            (Prepare in faulty ==> r == Run(Errored(Prepare), [Call(Prepare)], trace)) &&
            (Prepare !in faulty ==> |r.events| >= 2 && r.events[1] == Call(Command.Start)) &&
            (Prepare !in faulty && Command.Start in faulty ==>
               r == Run(Errored(Command.Start), [Call(Prepare), Call(Command.Start)], trace))
  {
  }

  /** The target image is the last one: `nbFrames - 1`. When the first look
      already shows it saved, one more status read decides, and even an
      abort test issues no `stop`. */
  lemma TargetAtFirstLook(nbFrames: int, abort: bool, faulty: set<Command>, trace: seq<Snapshot>)
    requires Prepare !in faulty && Command.Start !in faulty
    requires |trace| >= 4 && trace[1].lastSaved == nbFrames - 1
    ensures var r := RunSpec(nbFrames, abort, faulty, trace);
            r.events == [Call(Prepare), Call(Command.Start), Poll(trace[0]), Poll(trace[1]), Poll(trace[2]), Poll(trace[3])] &&
            r.rest == trace[4..] &&
            (r.outcome == Passed <==> trace[3].status == AcqReady) &&
            (r.outcome != Passed ==> r.outcome == Failed(NotReady(StatusCode(trace[2].status))))
  {
    var polls := [Poll(trace[0]), Poll(trace[1]), Poll(trace[2])];
    var f := FinalCheck(trace[3..], trace[2].status);
    assert trace[3..][0] == trace[3] && trace[3..][1..] == trace[4..];
    assert f.events == [Poll(trace[3])] && f.rest == trace[4..];
    assert Watch(nbFrames - 1, abort, faulty, trace) == Then(polls, f);
    ThenThen([Call(Prepare), Call(Command.Start)], polls, f);
  }

  /** An abort test stops and re-prepares after the first look, whatever
      the detector does, reads two more statuses and ends; a failure
      reports the status of the first look, not the final one. */
  lemma AbortSequence(nbFrames: int, trace: seq<Snapshot>)
    requires |trace| >= 5 && trace[1].lastSaved != nbFrames - 1
    ensures var r := RunSpec(nbFrames, true, {}, trace);
            r.events == [Call(Prepare), Call(Command.Start), Poll(trace[0]), Poll(trace[1]), Poll(trace[2]),
                         Call(Command.Stop), Slept(Seconds(2)), Call(Prepare), Slept(Seconds(2)),
                         Poll(trace[3]), Poll(trace[4])] &&
            r.rest == trace[5..] &&
            (r.outcome == Passed <==> trace[4].status == AcqReady) &&
            (r.outcome != Passed ==> r.outcome == Failed(NotReady(StatusCode(trace[2].status))))
  {
    var polls := [Poll(trace[0]), Poll(trace[1]), Poll(trace[2])];
    var quiet := [Call(Command.Stop), Slept(Seconds(2)), Call(Prepare), Slept(Seconds(2))];
    var t := trace[3..];
    assert t[0] == trace[3] && t[1..][0] == trace[4] && t[1..][1..] == trace[5..];
    var f := FinalCheck(t[1..], trace[2].status);
    assert f.events == [Poll(trace[4])] && f.rest == trace[5..];
    var a := AbortPath({}, t, trace[2].status);
    assert a == Then(quiet + [Poll(trace[3])], f);
    assert Watch(nbFrames - 1, true, {}, trace) == Then(polls, a);
    ThenThen(polls, quiet + [Poll(trace[3])], f);
    ThenThen([Call(Prepare), Call(Command.Start)], polls + (quiet + [Poll(trace[3])]), f);
  }

  /** A detector that is Ready before the target image is saved fails the
      test at once, without further reads. */
  lemma ReadyTooEarly(nbFrames: int, faulty: set<Command>, trace: seq<Snapshot>)
    requires Prepare !in faulty && Command.Start !in faulty
    requires |trace| >= 3 && trace[1].lastSaved != nbFrames - 1 && trace[2].status == AcqReady
    ensures RunSpec(nbFrames, false, faulty, trace) ==
            Run(Failed(ReadyIncomplete), [Call(Prepare), Call(Command.Start), Poll(trace[0]), Poll(trace[1]), Poll(trace[2])], trace[3..])
  {
    var polls := [Poll(trace[0]), Poll(trace[1]), Poll(trace[2])];
    assert Watch(nbFrames - 1, false, faulty, trace) == Run(Failed(ReadyIncomplete), polls, trace[3..]);
  }

  /** What a run `r` that failed because the detector was Ready too early
      has read, with `k` the number of snapshots it consumed: the iteration
      that failed ran without abort, its status read, the last one, was
      Ready, its saved-image read before that was not the target, and
      nothing was read after. */
  predicate ReadyFailedAt(idx: int, abort: bool, trace: seq<Snapshot>, r: Run) {
    r.outcome == Failed(ReadyIncomplete) ==>
      var k := |trace| - |r.rest|;
      !abort && 3 <= k <= |trace| && r.rest == trace[k..] &&
      trace[k - 1].status == AcqReady && trace[k - 2].lastSaved != idx
  }

  /** An iteration that goes on fails too early only as the rest of the
      loop does. */
  lemma ContinueReadyFails(idx: int, abort: bool, faulty: set<Command>, trace: seq<Snapshot>)
    requires |trace| >= 3 && trace[1].lastSaved != idx && !abort && trace[2].status != AcqReady
    requires var st := Settle(trace[3..], 5);
             !st.ended ==> ReadyFailedAt(idx, abort, st.rest, Watch(idx, abort, faulty, st.rest))
    ensures ReadyFailedAt(idx, abort, trace, Watch(idx, abort, faulty, trace))
  {
    var t := trace[3..];
    var st := Settle(t, 5);
    SettleBound(t, 5);
    if !st.ended {
      var w := Watch(idx, abort, faulty, st.rest);
      var r := Watch(idx, abort, faulty, trace);
      assert r == Iteration(idx, abort, faulty, trace);
      assert r.outcome == w.outcome && r.rest == w.rest;
      if w.outcome == Failed(ReadyIncomplete) {
        var off := |trace| - |st.rest|;
        var k' := |st.rest| - |w.rest|;
        assert st.rest == trace[off..];
        assert trace[off + k' - 1] == st.rest[k' - 1] && trace[off + k' - 2] == st.rest[k' - 2];
        assert trace[off + k'..] == st.rest[k'..];
      }
    } else {
      assert Watch(idx, abort, faulty, trace).outcome == Exhausted;
    }
  }

  /** Whatever iteration it happens at, the loop fails because the
      detector is Ready too early only in an iteration without abort whose
      status read was Ready while the saved image was not the target, and
      ends there. */
  lemma {:induction false} WatchReadyFails(idx: int, abort: bool, faulty: set<Command>, trace: seq<Snapshot>)
    ensures ReadyFailedAt(idx, abort, trace, Watch(idx, abort, faulty, trace))
    decreases |trace|
  {
    if |trace| >= 3 {
      var polls := [Poll(trace[0]), Poll(trace[1]), Poll(trace[2])];
      if trace[1].lastSaved == idx {
        assert Watch(idx, abort, faulty, trace) == Then(polls, FinalCheck(trace[3..], trace[2].status));
      } else if abort {
        assert Watch(idx, abort, faulty, trace) == Then(polls, AbortPath(faulty, trace[3..], trace[2].status));
      } else if trace[2].status == AcqReady {
        assert Watch(idx, abort, faulty, trace) == Run(Failed(ReadyIncomplete), polls, trace[3..]);
      } else {
        var st := Settle(trace[3..], 5);
        if !st.ended {
          SettleBound(trace[3..], 5);
          WatchReadyFails(idx, abort, faulty, st.rest);
        }
        ContinueReadyFails(idx, abort, faulty, trace);
      }
    }
  }

  /** `runTest` fails because the detector is Ready too early only as the
      loop does: the commands before it read nothing. */
  lemma RunReadyFails(nbFrames: int, abort: bool, faulty: set<Command>, trace: seq<Snapshot>)
    ensures ReadyFailedAt(nbFrames - 1, abort, trace, RunSpec(nbFrames, abort, faulty, trace))
  {
    if Prepare !in faulty && Command.Start !in faulty {
      WatchReadyFails(nbFrames - 1, abort, faulty, trace);
    }
  }

  /** Ten frames configured: as written the monitor waits for image 8, the
      second to last, and passes though image 9 was never saved; waiting
      for the last image the same run does not pass. */
  lemma TenFramesPassEarly()
    ensures var s := [Snapshot(AcqRunning, 8, 7), Snapshot(AcqRunning, 8, 8),
                      Snapshot(AcqRunning, 8, 8), Snapshot(AcqReady, 8, 8)];
            RunAsWritten(10, false, {}, s).outcome == Passed &&
            (forall i :: 0 <= i < |s| ==> s[i].lastSaved != 9) &&
            RunSpec(10, false, {}, s).outcome != Passed
  {
    var s := [Snapshot(AcqRunning, 8, 7), Snapshot(AcqRunning, 8, 8),
              Snapshot(AcqRunning, 8, 8), Snapshot(AcqReady, 8, 8)];
    assert s[3..] == [Snapshot(AcqReady, 8, 8)];
    RunPassesSaved(10, false, {}, s);
  }

  class LimaCCDAcquisitionTest {
    const name: string
    const testConfig: Settings
    const abort: bool
    /** Always false: this test case never asks for the Tango backend. */
    const tangoMode: bool
    var detector: LimaCoreDetector?

    /** `LimaCCDAcquisitionTest(config, abort)` */
    constructor (config: Settings, abort: bool)
      ensures name == config.name && testConfig == config && this.abort == abort
      ensures !tangoMode && detector == null
    {
      name := config.name;
      testConfig := config;
      this.abort := abort;
      tangoMode := false;
      detector := null;
    }

    /** `setUp`: the saving `directory` is looked up for the log (a
        `KeyError` when it is missing), then the core detector is built,
        which writes the configuration to the hardware; `init_hw` found
        `ct`. */
    method SetUp(ct: CtControl) returns (ok: bool)
      modifies this`detector, ct`acqPars, ct`savingPars, ct`log
      ensures "directory" !in testConfig.saving ==>
                !ok && detector == old(detector) && ct.acqPars == old(ct.acqPars) &&
                ct.savingPars == old(ct.savingPars) && ct.log == old(ct.log)
      ensures "directory" in testConfig.saving ==>
                var w := WriteConfig(CurrentTables, testConfig.acq, testConfig.saving, old(ct.acqPars), old(ct.savingPars));
                ok == w.ok && ct.acqPars == w.acqPars && ct.savingPars == w.savingPars && ct.log == old(ct.log) + w.events
      ensures ok ==> detector != null && fresh(detector) && detector.ct == ct &&
                     detector.acqConfig == testConfig.acq && detector.savingConfig == testConfig.saving
      ensures !ok ==> detector == old(detector)
    {
      if "directory" !in testConfig.saving {
        return false;
      }
      var d := NewLimaCoreDetector(ct, testConfig.acq, testConfig.saving);
      if d == null {
        return false;
      }
      detector := d;
      ok := true;
    }

    /** The check after the loop. */
    method Finish(d: LimaCoreDetector, status: AcqStatus) returns (outcome: Outcome)
      modifies d.ct`trace, d.ct`log
      ensures var r := FinalCheck(old(d.ct.trace), status);
              outcome == r.outcome && d.ct.log == old(d.ct.log) + r.events && d.ct.trace == r.rest
    {
      var s := d.AcqStatus();
      if s.None? {
        return Exhausted;
      }
      if s.value != AcqReady {
        return Failed(NotReady(StatusCode(status)));
      }
      outcome := Passed;
    }

    /** The abort branch. */
    method Abort(d: LimaCoreDetector, status: AcqStatus) returns (outcome: Outcome)
      modifies d.ct`trace, d.ct`log
      ensures var r := AbortPath(d.ct.faulty, old(d.ct.trace), status);
              outcome == r.outcome && d.ct.log == old(d.ct.log) + r.events && d.ct.trace == r.rest
    {
      var ok := d.Stop();
      if !ok {
        return Errored(Command.Stop);
      }
      d.ct.Sleep(Seconds(2));
      ok := d.PrepareAcq();
      if !ok {
        return Errored(Prepare);
      }
      d.ct.Sleep(Seconds(2));
      var debug := d.AcqStatus();
      if debug.None? {
        return Exhausted;
      }
      outcome := Finish(d, status);
    }

    /** `for i in range(n)`: polls until Ready, sleeping a second after each
        other status; `ended` when the script runs out. */
    method WaitReady(d: LimaCoreDetector, n: nat) returns (ended: bool)
      modifies d.ct`trace, d.ct`log
      ensures var st := Settle(old(d.ct.trace), n);
              ended == st.ended && d.ct.log == old(d.ct.log) + st.events && d.ct.trace == st.rest
    {
      ghost var whole := Settle(d.ct.trace, n);
      ghost var done: seq<Event> := [];
      var i := 0;
      while i < n
        invariant 0 <= i <= n
        invariant d.ct.log == old(d.ct.log) + done
        invariant whole == Prepend(done, Settle(d.ct.trace, n - i))
      {
        ghost var t := d.ct.trace;
        var s := d.AcqStatus();
        if s.None? {
          return true;
        }
        if s.value == AcqReady {
          return false;
        }
        d.ct.Sleep(Seconds(1));
        SettleUnfold(t, n - i, done);
        Logged(old(d.ct.log), done, [Poll(t[0]), Slept(Seconds(1))]);
        done := done + [Poll(t[0]), Slept(Seconds(1))];
        i := i + 1;
      }
      ended := false;
    }

    /** The three fresh reads that open an iteration: last acquired image,
        last saved image and status; `None` when the script runs out. */
    method ReadThree(d: LimaCoreDetector) returns (r: Option<(int, AcqStatus)>)
      modifies d.ct`trace, d.ct`log
      ensures var t := old(d.ct.trace);
              |t| < 3 ==> r.None? && d.ct.log == old(d.ct.log) + PollAll(t) && d.ct.trace == []
      ensures var t := old(d.ct.trace);
              |t| >= 3 ==> r == Some((t[1].lastSaved, t[2].status)) && d.ct.trace == t[3..] &&
                           d.ct.log == old(d.ct.log) + [Poll(t[0]), Poll(t[1]), Poll(t[2])]
    {
      ghost var t := d.ct.trace;
      PollAllShort(t);
      var acquired := d.LastImage();
      if acquired.None? {
        return None;
      }
      var saved := d.LastImageSaved();
      if saved.None? {
        return None;
      }
      var status := d.AcqStatus();
      if status.None? {
        return None;
      }
      assert d.ct.trace == t[1..][1..][1..] == t[3..];
      r := Some((saved.value, status.value));
    }

    /** The end of an iteration that goes on: a frame period of sleep, then
        up to five status reads until Ready. */
    method Pause(d: LimaCoreDetector) returns (ended: bool)
      modifies d.ct`trace, d.ct`log
      ensures var st := Settle(old(d.ct.trace), 5);
              ended == st.ended && d.ct.log == old(d.ct.log) + [Slept(CycleTime)] + st.events && d.ct.trace == st.rest
    {
      d.ct.Sleep(CycleTime);
      ended := WaitReady(d, 5);
    }

    /** One iteration of the `while True` loop, logging `evs`; `None` when
        the loop goes on. */
    method Iterate(d: LimaCoreDetector, idx: int) returns (r: Option<Outcome>, ghost evs: seq<Event>)
      modifies d.ct`trace, d.ct`log
      ensures d.ct.log == old(d.ct.log) + evs
      ensures r.Some? ==> Watch(idx, abort, d.ct.faulty, old(d.ct.trace)) == Run(r.value, evs, d.ct.trace)
      ensures r.None? ==> |d.ct.trace| < |old(d.ct.trace)| &&
                          Watch(idx, abort, d.ct.faulty, old(d.ct.trace)) ==
                          Then(evs, Watch(idx, abort, d.ct.faulty, d.ct.trace))
    {
      ghost var t := d.ct.trace;
      ghost var log0 := d.ct.log;
      var read := ReadThree(d);
      if read.None? {
        evs := PollAll(t);
        return Some(Exhausted), evs;
      }
      ghost var polls := [Poll(t[0]), Poll(t[1]), Poll(t[2])];
      var (saved, status) := read.value;
      if saved == idx {
        var outcome := Finish(d, status);
        evs := polls + FinalCheck(t[3..], status).events;
        Logged(log0, polls, FinalCheck(t[3..], status).events);
        return Some(outcome), evs;
      }
      if abort {
        var outcome := Abort(d, status);
        evs := polls + AbortPath(d.ct.faulty, t[3..], status).events;
        Logged(log0, polls, AbortPath(d.ct.faulty, t[3..], status).events);
        return Some(outcome), evs;
      }
      if status == AcqReady {
        return Some(Failed(ReadyIncomplete)), polls;
      }
      var ended := Pause(d);
      ghost var st := Settle(t[3..], 5);
      evs := polls + ([Slept(CycleTime)] + st.events);
      Logged(log0, polls, [Slept(CycleTime)] + st.events);
      Logged(log0 + polls, [Slept(CycleTime)], st.events);
      assert polls + [Slept(CycleTime)] + st.events == evs;
      if ended {
        return Some(Exhausted), evs;
      }
      r := None;
    }

    /** The `while True` loop and the check after it, for target image
        `idx`. */
    method WatchLoop(d: LimaCoreDetector, idx: int) returns (outcome: Outcome)
      modifies d.ct`trace, d.ct`log
      ensures var w := Watch(idx, abort, d.ct.faulty, old(d.ct.trace));
              outcome == w.outcome && d.ct.log == old(d.ct.log) + w.events && d.ct.trace == w.rest
    {
      var counter := 0;
      ghost var whole := Watch(idx, abort, d.ct.faulty, d.ct.trace);
      ghost var done: seq<Event> := [];
      while true
        invariant d.ct.log == old(d.ct.log) + done
        invariant whole == Then(done, Watch(idx, abort, d.ct.faulty, d.ct.trace))
        decreases |d.ct.trace|
      {
        ghost var t := d.ct.trace;
        var r, evs := Iterate(d, idx);
        if r.Some? {
          assert whole == Then(done, Run(r.value, evs, d.ct.trace));
          Logged(old(d.ct.log), done, evs);
          done := done + evs;
          return r.value;
        }
        ThenThen(done, evs, Watch(idx, abort, d.ct.faulty, d.ct.trace));
        Logged(old(d.ct.log), done, evs);
        done := done + evs;
        counter := counter + 1;
      }
    }

    /** `runTest`: the target is `frames - 1`, where `frames` of the core
        backend is already `acqNbFrames - 1`, so the loop waits for image
        `acqNbFrames - 2` (`RunAsWritten`). */
    method RunTest() returns (outcome: Outcome)
      requires detector != null && detector.Frames().Some?
      modifies detector.ct`trace, detector.ct`log
      ensures var r := RunAsWritten(old(detector.Frames()).value + 1, abort, detector.ct.faulty, old(detector.ct.trace));
              outcome == r.outcome && detector.ct.log == old(detector.ct.log) + r.events && detector.ct.trace == r.rest
    {
      var d := detector;
      var ok := d.PrepareAcq();
      if !ok {
        return Errored(Prepare);
      }
      ok := d.Start();
      if !ok {
        return Errored(Command.Start);
      }
      var idx := d.Frames().value - 1;
      ghost var log0 := d.ct.log;
      outcome := WatchLoop(d, idx);
      ghost var w := Watch(idx, abort, d.ct.faulty, old(d.ct.trace));
      assert d.ct.log == log0 + w.events;
      assert log0 == old(d.ct.log) + [Call(Prepare), Call(Command.Start)];
      Logged(old(d.ct.log), [Call(Prepare), Call(Command.Start)], w.events);
    }

    /** `tearDown`: the detector is released. */
    method TearDown()
      modifies this`detector
      ensures detector == null
    {
      detector := null;
    }
  }
}
