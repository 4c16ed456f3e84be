/** The previous acquisition monitor, `LimaDetector.start(abort)` of
    `LimaTestSuite/LimaCCDDetector.py`, with the detector it belongs to. The
    detector starts the acquisition, then repeats: read the last acquired
    image, the last saved image and the status (three fresh `getStatus()`
    calls); leave the loop when the saved image is the target; on abort stop
    once and leave the loop; raise when the detector is Ready too early;
    otherwise wait a frame period and read the last acquired image once more.
    After the loop it polls up to `WAIT_TIMEOUT` times for Ready, and one
    more status read must be Ready. Unlike the current monitor, it never
    re-prepares, and the settle loop runs once, after the main loop. */
module CcdDetector {
  import opened Common
  import opened LimaCore
  import opened Monitor
  import opened Translate
  import opened CoreDetector

  /** `WAIT_TIMEOUT`: the settle polls after the loop. */
  const WaitTimeout: nat := 10

  /** The last status read: Ready passes; any other status raises with its
      own code. */
  function FinalRead(trace: seq<Snapshot>): Run {
    if trace == [] then Run(Exhausted, [], [])
    else if trace[0].status == AcqReady then Run(Passed, [Poll(trace[0])], trace[1..])
    else Run(Failed(NotReady(StatusCode(trace[0].status))), [Poll(trace[0])], trace[1..])
  }

  /** What follows the loop: the `WAIT_TIMEOUT` settle loop, then the last
      status read. */
  function AfterLoop(trace: seq<Snapshot>): Run {
    var st := Settle(trace, WaitTimeout);
    if st.ended then Run(Exhausted, st.events, []) else Then(st.events, FinalRead(st.rest))
  }

  /** The abort branch: `stop()` (a `RuntimeError` when `stopAcq` raises),
      three seconds, a status read for the debug log, then what follows the
      loop. */
  function Stopping(faulty: set<Command>, trace: seq<Snapshot>): Run {
    if Command.Stop in faulty then Run(Errored(Command.Stop), [Call(Command.Stop)], trace)
    else if trace == [] then Run(Exhausted, [Call(Command.Stop), Slept(Seconds(3))], [])
    else Then([Call(Command.Stop), Slept(Seconds(3)), Poll(trace[0])], AfterLoop(trace[1..]))
  }

  /** The `while True` loop from the snapshots `trace` on, for target image
      `idx`, and what follows it. */
  function Loop(idx: int, abort: bool, faulty: set<Command>, trace: seq<Snapshot>): Run
    decreases |trace|
  {
    if |trace| < 3 then Run(Exhausted, PollAll(trace), [])
    else
      var polls := [Poll(trace[0]), Poll(trace[1]), Poll(trace[2])];
      var saved, status, t := trace[1].lastSaved, trace[2].status, trace[3..];
      if saved == idx then Then(polls, AfterLoop(t))
      else if abort then Then(polls, Stopping(faulty, t))
      else if status == AcqReady then Run(Failed(ReadyIncomplete), polls, t)
      else if t == [] then Run(Exhausted, polls + [Slept(CycleTime)], [])
      else Then(polls + [Slept(CycleTime), Poll(t[0])], Loop(idx, abort, faulty, t[1..]))
  }

  /** `start(abort)` on a controller configured for `nbFrames` frames: the
      target is the last image, `nbFrames - 1`. */
  function StartSpec(nbFrames: int, abort: bool, faulty: set<Command>, trace: seq<Snapshot>): Run {
    if Command.Start in faulty then Run(Errored(Command.Start), [Call(Command.Start)], trace)
    else Then([Call(Command.Start)], Loop(nbFrames - 1, abort, faulty, trace))
  }

  /** A `startAcq` that raises ends `start` with a `RuntimeError` before
      any status read; otherwise `startAcq` is the first and only command
      before the loop. */
  lemma StartOpens(nbFrames: int, abort: bool, faulty: set<Command>, trace: seq<Snapshot>)
    ensures var r := StartSpec(nbFrames, abort, faulty, trace);
            |r.events| >= 1 && r.events[0] == Call(Command.Start) &&
            (Command.Start in faulty <==> r.outcome == Errored(Command.Start)) &&
            (Command.Start in faulty ==> r.events == [Call(Command.Start)] && r.rest == trace)
  {
    if Command.Start !in faulty {
      LoopCommands(nbFrames - 1, abort, faulty, trace);
      if Loop(nbFrames - 1, abort, faulty, trace).outcome == Errored(Command.Start) {
        LoopErrors(nbFrames - 1, abort, faulty, trace);
      }
    }
  }

  /** The only command the loop can raise on is `stop`. */
  lemma {:induction false} LoopErrors(idx: int, abort: bool, faulty: set<Command>, trace: seq<Snapshot>)
    ensures Loop(idx, abort, faulty, trace).outcome.Errored? ==>
              abort && Loop(idx, abort, faulty, trace).outcome == Errored(Command.Stop)
    decreases |trace|
  {
    if |trace| >= 4 && trace[1].lastSaved != idx && !abort && trace[2].status != AcqReady {
      LoopErrors(idx, abort, faulty, trace[4..]);
      assert trace[3..][1..] == trace[4..];
    }
  }

  /** What follows the loop reads at most `WAIT_TIMEOUT + 1` snapshots, in
      order. It passes only when the last read is Ready, and a failure
      reports the code of that last read, which is not Ready. */
  lemma AfterLoopCheck(trace: seq<Snapshot>)
    ensures var r, k := AfterLoop(trace), |trace| - |AfterLoop(trace).rest|;
            ReadsInOrder(trace, r) && k <= WaitTimeout + 1 &&
            (r.outcome == Passed || r.outcome == Exhausted || r.outcome.Failed?) &&
            (r.outcome == Passed ==> k >= 1 && trace[k - 1].status == AcqReady) &&
            (r.outcome.Failed? ==> k >= 1 && trace[k - 1].status != AcqReady &&
                                   r.outcome == Failed(NotReady(StatusCode(trace[k - 1].status))))
  {
    AfterLoopReads(trace);
    AfterLoopVerdict(trace);
  }

  /** What follows the loop reads in order, at most `WAIT_TIMEOUT + 1`
      snapshots. */
  lemma AfterLoopReads(trace: seq<Snapshot>)
    ensures ReadsInOrder(trace, AfterLoop(trace)) && |trace| - |AfterLoop(trace).rest| <= WaitTimeout + 1
  {
    var st := Settle(trace, WaitTimeout);
    var j := SettleReads(trace, WaitTimeout);
    SettleBound(trace, WaitTimeout);
    SettlePolls(trace, WaitTimeout);
    if st.ended {
      SettleStops(trace, WaitTimeout);
      assert trace[j..] == [];
    } else {
      FinalReadsInOrder(st.rest);
      ThenReads(st.events, trace, j, FinalRead(st.rest));
    }
  }

  /** The verdict after the loop is that of the last snapshot read. */
  lemma AfterLoopVerdict(trace: seq<Snapshot>)
    ensures var r, k := AfterLoop(trace), |trace| - |AfterLoop(trace).rest|;
            (r.outcome == Passed || r.outcome == Exhausted || r.outcome.Failed?) &&
            (r.outcome == Passed ==> k >= 1 && trace[k - 1].status == AcqReady) &&
            (r.outcome.Failed? ==> k >= 1 && trace[k - 1].status != AcqReady &&
                                   r.outcome == Failed(NotReady(StatusCode(trace[k - 1].status))))
  {
    var st := Settle(trace, WaitTimeout);
    var j := SettleReads(trace, WaitTimeout);
    SettleBound(trace, WaitTimeout);
    if !st.ended && st.rest != [] {
      assert st.rest[0] == trace[j];
    }
  }

  lemma FinalReadsInOrder(trace: seq<Snapshot>)
    ensures ReadsInOrder(trace, FinalRead(trace))
  {
    if trace != [] {
      PolledOne(Poll(trace[0]));
      assert trace[..1] == [trace[0]];
    }
  }

  /** The abort branch reads in order. */
  lemma StoppingReads(faulty: set<Command>, trace: seq<Snapshot>)
    ensures ReadsInOrder(trace, Stopping(faulty, trace))
  {
    var quiet := [Call(Command.Stop), Slept(Seconds(3))];
    if Command.Stop in faulty {
      PolledOne(Call(Command.Stop));
    } else if trace == [] {
      PolledNone(quiet);
    } else {
      PolledNone(quiet);
      PolledOne(Poll(trace[0]));
      PolledAppend(quiet, [Poll(trace[0])]);
      assert quiet + [Poll(trace[0])] == [Call(Command.Stop), Slept(Seconds(3)), Poll(trace[0])];
      assert trace[..1] == [trace[0]];
      AfterLoopCheck(trace[1..]);
      ThenReads(quiet + [Poll(trace[0])], trace, 1, AfterLoop(trace[1..]));
    }
  }

  /** The four reads of an iteration that goes on, with a sleep between
      the third and the fourth. */
  lemma PolledFour(trace: seq<Snapshot>)
    requires |trace| >= 4
    ensures Polled([Poll(trace[0]), Poll(trace[1]), Poll(trace[2])] + [Slept(CycleTime), Poll(trace[3])]) == trace[..4]
  {
    var polls := [Poll(trace[0]), Poll(trace[1]), Poll(trace[2])];
    var tail := [Slept(CycleTime), Poll(trace[3])];
    PolledTriple(trace);
    PolledOne(Poll(trace[3]));
    assert tail[1..] == [Poll(trace[3])];
    PolledAppend(polls, tail);
    assert trace[..4] == trace[..3] + [trace[3]];
  }

  /** The loop, and what follows it, read the snapshots in order and skip
      none. */
  lemma {:induction false} LoopReadsInOrder(idx: int, abort: bool, faulty: set<Command>, trace: seq<Snapshot>)
    ensures ReadsInOrder(trace, Loop(idx, abort, faulty, trace))
    decreases |trace|
  {
    if |trace| < 3 {
      PolledPollAll(trace);
    } else {
      var t := trace[3..];
      var polls := [Poll(trace[0]), Poll(trace[1]), Poll(trace[2])];
      var saved, status := trace[1].lastSaved, trace[2].status;
      PolledTriple(trace);
      if saved == idx {
        AfterLoopCheck(t);
        ThenReads(polls, trace, 3, AfterLoop(t));
      } else if abort {
        StoppingReads(faulty, t);
        ThenReads(polls, trace, 3, Stopping(faulty, t));
      } else if status == AcqReady {
        assert trace[|trace| - |t|..] == t;
      } else if t == [] {
        PolledOne(Slept(CycleTime));
        PolledAppend(polls, [Slept(CycleTime)]);
        assert trace[..3] == trace;
      } else {
        LoopReadsInOrder(idx, abort, faulty, t[1..]);
        PolledFour(trace);
        assert t[1..] == trace[4..];
        ThenReads(polls + [Slept(CycleTime), Poll(t[0])], trace, 4, Loop(idx, abort, faulty, t[1..]));
      }
    }
  }

  /** The iteration that starts at snapshot `n` goes on: it reads four
      snapshots, its saved image is not the target, the test does not
      abort and the status is not Ready. */
  predicate GoesOn(idx: int, abort: bool, trace: seq<Snapshot>, n: int) {
    0 <= n && n + 4 <= |trace| && !abort && trace[n + 1].lastSaved != idx && trace[n + 2].status != AcqReady
  }

  /** The loop leaves at the iteration that starts at snapshot `j`: every
      iteration before it, one each four snapshots, went on, and this one
      read the target as its saved image, or the test aborts. */
  predicate LeavesAt(idx: int, abort: bool, trace: seq<Snapshot>, j: int) {
    0 <= j && j % 4 == 0 && j + 3 <= |trace| && (trace[j + 1].lastSaved == idx || abort) &&
    forall n :: 0 <= n < j && n % 4 == 0 ==> GoesOn(idx, abort, trace, n)
  }

  /** What a passing run `r` has read, `k` snapshots in all: the loop left
      at some iteration `j`, which read the target unless the test aborts
      (an abort leaves at the first one); after it came at most
      `WAIT_TIMEOUT + 1` reads (one more, the debug read, after an abort
      short of the target), the last of them Ready. */
  predicate PassedAt(idx: int, abort: bool, trace: seq<Snapshot>, r: Run) {
    r.outcome == Passed ==>
      var k := |trace| - |r.rest|;
      1 <= k && trace[k - 1].status == AcqReady &&
      exists j :: 0 <= j < k && LeavesAt(idx, abort, trace, j) &&
        j + 4 <= k <= j + 4 + WaitTimeout + (if trace[j + 1].lastSaved == idx then 0 else 1)
  }

  /** A run that leaves the loop at its first iteration passes only after
      a Ready read. */
  lemma LeavingPasses(idx: int, abort: bool, faulty: set<Command>, trace: seq<Snapshot>)
    requires |trace| >= 3 && (trace[1].lastSaved == idx || abort)
    ensures PassedAt(idx, abort, trace, Loop(idx, abort, faulty, trace))
  {
    if trace[1].lastSaved == idx {
      LeavingAtTarget(idx, abort, faulty, trace);
    } else {
      LeavingOnAbort(idx, faulty, trace);
    }
  }

  /** Leaving at the target: the wait and the last read follow at once. */
  lemma LeavingAtTarget(idx: int, abort: bool, faulty: set<Command>, trace: seq<Snapshot>)
    requires |trace| >= 3 && trace[1].lastSaved == idx
    ensures PassedAt(idx, abort, trace, Loop(idx, abort, faulty, trace))
  {
    var t := trace[3..];
    var polls := [Poll(trace[0]), Poll(trace[1]), Poll(trace[2])];
    var r := Then(polls, AfterLoop(t));
    assert Loop(idx, abort, faulty, trace) == r;
    if r.outcome == Passed {
      AfterLoopReads(t);
      AfterLoopVerdict(t);
      var k := |t| - |r.rest|;
      assert trace[|trace| - |r.rest| - 1] == t[k - 1];
      assert LeavesAt(idx, abort, trace, 0);
    }
  }

  /** Leaving on abort short of the target: `stop`, the debug read, then
      the wait and the last read. */
  lemma LeavingOnAbort(idx: int, faulty: set<Command>, trace: seq<Snapshot>)
    requires |trace| >= 3 && trace[1].lastSaved != idx
    ensures PassedAt(idx, true, trace, Loop(idx, true, faulty, trace))
  {
    var t := trace[3..];
    var polls := [Poll(trace[0]), Poll(trace[1]), Poll(trace[2])];
    assert Loop(idx, true, faulty, trace) == Then(polls, Stopping(faulty, t));
    if Command.Stop !in faulty && t != [] {
      var u := t[1..];
      var r := AfterLoop(u);
      if r.outcome == Passed {
        AfterLoopReads(u);
        AfterLoopVerdict(u);
        var k := |u| - |r.rest|;
        assert trace[|trace| - |r.rest| - 1] == u[k - 1];
        assert LeavesAt(idx, true, trace, 0);
      }
    }
  }

  /** An iteration that goes on passes only as the rest of the loop does,
      which leaves four snapshots later than it would on its own. */
  lemma GoingOnPasses(idx: int, abort: bool, faulty: set<Command>, trace: seq<Snapshot>)
    requires |trace| >= 4 && trace[1].lastSaved != idx && !abort && trace[2].status != AcqReady
    requires PassedAt(idx, abort, trace[4..], Loop(idx, abort, faulty, trace[4..]))
    ensures PassedAt(idx, abort, trace, Loop(idx, abort, faulty, trace))
  {
    var u := trace[4..];
    var w := Loop(idx, abort, faulty, u);
    assert trace[3..][1..] == u;
    assert Loop(idx, abort, faulty, trace).outcome == w.outcome && Loop(idx, abort, faulty, trace).rest == w.rest;
    if w.outcome == Passed {
      assert trace[|trace| - |w.rest| - 1] == u[|u| - |w.rest| - 1];
      var j' :| 0 <= j' < |u| - |w.rest| && LeavesAt(idx, abort, u, j') &&
                j' + 4 <= |u| - |w.rest| <= j' + 4 + WaitTimeout + (if u[j' + 1].lastSaved == idx then 0 else 1);
      LeavesLater(idx, abort, trace, j');
    }
  }

  /** Leaving at `j` after the first four snapshots is leaving at `j + 4`
      when the first iteration goes on. */
  lemma LeavesLater(idx: int, abort: bool, trace: seq<Snapshot>, j: int)
    requires GoesOn(idx, abort, trace, 0) && LeavesAt(idx, abort, trace[4..], j)
    ensures LeavesAt(idx, abort, trace, j + 4) && trace[j + 5] == trace[4..][j + 1]
  {
    var u := trace[4..];
    forall n | 0 <= n < j + 4 && n % 4 == 0
      ensures GoesOn(idx, abort, trace, n)
    {
      if n >= 4 {
        assert GoesOn(idx, abort, u, n - 4);
        assert u[n - 4 + 1] == trace[n + 1] && u[n - 4 + 2] == trace[n + 2];
      }
    }
  }

  /** `start` passes a run only after a final Ready read, and without
      abort only when the iteration that left the loop read the target as
      its saved image. */
  lemma {:induction false} LoopPasses(idx: int, abort: bool, faulty: set<Command>, trace: seq<Snapshot>)
    ensures PassedAt(idx, abort, trace, Loop(idx, abort, faulty, trace))
    decreases |trace|
  {
    if |trace| >= 3 && (trace[1].lastSaved == idx || abort) {
      LeavingPasses(idx, abort, faulty, trace);
    } else if |trace| >= 4 && trace[2].status != AcqReady {
      LoopPasses(idx, abort, faulty, trace[4..]);
      GoingOnPasses(idx, abort, faulty, trace);
    }
  }

  /** What follows the loop issues no command. */
  lemma AfterLoopQuiet(trace: seq<Snapshot>)
    ensures forall e :: e in AfterLoop(trace).events ==> !e.Call?
  {
    SettleQuiet(trace, WaitTimeout);
  }

  /** The loop issues a command only when it aborts, and then only
      `stop`; it never re-prepares. */
  lemma {:induction false} LoopCommands(idx: int, abort: bool, faulty: set<Command>, trace: seq<Snapshot>)
    ensures forall e :: e in Loop(idx, abort, faulty, trace).events && e.Call? ==>
              abort && e.cmd == Command.Stop
    decreases |trace|
  {
    if |trace| >= 3 {
      var t := trace[3..];
      if trace[1].lastSaved == idx {
        AfterLoopQuiet(t);
      } else if abort {
        if t != [] && Command.Stop !in faulty {
          AfterLoopQuiet(t[1..]);
        }
      } else if trace[2].status != AcqReady && t != [] {
        LoopCommands(idx, abort, faulty, t[1..]);
      }
    }
  }

  /** An abort run that is not complete at its first look issues exactly
      one `stop()` and then no other command. */
  lemma AbortStopsOnce(idx: int, faulty: set<Command>, trace: seq<Snapshot>)
    requires |trace| >= 3 && trace[1].lastSaved != idx
    ensures var r := Loop(idx, true, faulty, trace);
            |r.events| >= 4 && r.events[..4] == [Poll(trace[0]), Poll(trace[1]), Poll(trace[2]), Call(Command.Stop)] &&
            forall e :: e in r.events[4..] ==> !e.Call?
  {
    var polls := [Poll(trace[0]), Poll(trace[1]), Poll(trace[2])];
    var s := Stopping(faulty, trace[3..]);
    assert Loop(idx, true, faulty, trace).events == polls + s.events;
    StoppingQuiet(faulty, trace[3..]);
    assert s.events == [Call(Command.Stop)] + s.events[1..];
    StopThenQuiet(polls, s.events[1..]);
  }

  /** The abort branch issues `stop()` first and no command after it. */
  lemma StoppingQuiet(faulty: set<Command>, trace: seq<Snapshot>)
    ensures var s := Stopping(faulty, trace);
            |s.events| >= 1 && s.events[0] == Call(Command.Stop) && forall e :: e in s.events[1..] ==> !e.Call?
  {
    var s := Stopping(faulty, trace);
    if Command.Stop !in faulty && trace != [] {
      AfterLoopQuiet(trace[1..]);
      var rest := AfterLoop(trace[1..]).events;
      assert s.events[1..] == [Slept(Seconds(3)), Poll(trace[0])] + rest;
      QuietTail(Poll(trace[0]), rest);
    } else if Command.Stop !in faulty {
      assert s.events[1..] == [Slept(Seconds(3))];
    } else {
      assert s.events[1..] == [];
    }
  }

  /** A sleep and a status read, then events with no command, hold no
      command. */
  lemma QuietTail(read: Event, rest: seq<Event>)
    requires !read.Call? && forall e :: e in rest ==> !e.Call?
    ensures forall e :: e in [Slept(Seconds(3)), read] + rest ==> !e.Call?
  {
  }

  /** Three reads, `stop`, then events with no command. */
  lemma StopThenQuiet(polls: seq<Event>, tail: seq<Event>)
    requires |polls| == 3 && forall e :: e in tail ==> !e.Call?
    ensures var ev := polls + ([Call(Command.Stop)] + tail);
            |ev| >= 4 && ev[..4] == polls + [Call(Command.Stop)] && forall e :: e in ev[4..] ==> !e.Call?
  {
    var ev := polls + ([Call(Command.Stop)] + tail);
    assert ev[4..] == tail;
  }

  /** A run already at the target issues no `stop`, even with abort: the
      completion check comes first. */
  lemma TargetBeforeAbort(idx: int, faulty: set<Command>, trace: seq<Snapshot>)
    requires |trace| >= 3 && trace[1].lastSaved == idx
    ensures forall e :: e in Loop(idx, true, faulty, trace).events ==> !e.Call?
  {
    LoopCommands(idx, true, faulty, trace);
    var t := trace[3..];
    AfterLoopQuiet(t);
    assert Loop(idx, true, faulty, trace) == Then([Poll(trace[0]), Poll(trace[1]), Poll(trace[2])], AfterLoop(t));
  }

  /** Without abort, a detector that is Ready before the target image is
      saved raises at once, without further reads. */
  lemma ReadyRaises(nbFrames: int, faulty: set<Command>, trace: seq<Snapshot>)
    requires Command.Start !in faulty
    requires |trace| >= 3 && trace[1].lastSaved != nbFrames - 1 && trace[2].status == AcqReady
    ensures StartSpec(nbFrames, false, faulty, trace) ==
            Run(Failed(ReadyIncomplete), [Call(Command.Start), Poll(trace[0]), Poll(trace[1]), Poll(trace[2])], trace[3..])
  {
    assert Loop(nbFrames - 1, false, faulty, trace) ==
           Run(Failed(ReadyIncomplete), [Poll(trace[0]), Poll(trace[1]), Poll(trace[2])], trace[3..]);
  }

  /** What a run `r` that failed because the detector was Ready too early
      has read, with `k` the number of snapshots it consumed: the iteration
      that failed ran without abort, its status read, the last one, was
      Ready, its saved-image read before that was not the target, and
      nothing was read after. */
  predicate ReadyFailedAt(idx: int, abort: bool, trace: seq<Snapshot>, r: Run) {
    r.outcome == Failed(ReadyIncomplete) ==>
      var k := |trace| - |r.rest|;
      !abort && 3 <= k <= |trace| && r.rest == trace[k..] &&
      trace[k - 1].status == AcqReady && trace[k - 2].lastSaved != idx
  }

  /** An iteration that goes on fails too early only as the rest of the
      loop does, four reads later. */
  lemma GoingOnReadyFails(idx: int, abort: bool, faulty: set<Command>, trace: seq<Snapshot>)
    requires |trace| >= 4 && trace[1].lastSaved != idx && !abort && trace[2].status != AcqReady
    requires ReadyFailedAt(idx, abort, trace[4..], Loop(idx, abort, faulty, trace[4..]))
    ensures ReadyFailedAt(idx, abort, trace, Loop(idx, abort, faulty, trace))
  {
    var u := trace[4..];
    var w := Loop(idx, abort, faulty, u);
    var r := Loop(idx, abort, faulty, trace);
    assert trace[3..][1..] == u;
    assert r == Then([Poll(trace[0]), Poll(trace[1]), Poll(trace[2]), Slept(CycleTime), Poll(trace[3])], w);
    if w.outcome == Failed(ReadyIncomplete) {
      var k' := |u| - |w.rest|;
      assert trace[4 + k' - 1] == u[k' - 1] && trace[4 + k' - 2] == u[k' - 2];
      assert trace[4 + k'..] == u[k'..];
    }
  }

  /** Whatever iteration it happens at, the loop fails because the
      detector is Ready too early only in an iteration without abort whose
      status read was Ready while the saved image was not the target, and
      nothing is read after it. */
  lemma {:induction false} LoopReadyFails(idx: int, abort: bool, faulty: set<Command>, trace: seq<Snapshot>)
    ensures ReadyFailedAt(idx, abort, trace, Loop(idx, abort, faulty, trace))
    decreases |trace|
  {
    if |trace| >= 3 {
      if trace[1].lastSaved == idx || abort {
        LeavingNotReadyFailure(idx, abort, faulty, trace);
      } else if trace[2].status == AcqReady {
        ReadyFailsHere(idx, abort, faulty, trace);
      } else if |trace| >= 4 {
        LoopReadyFails(idx, abort, faulty, trace[4..]);
        GoingOnReadyFails(idx, abort, faulty, trace);
      }
    }
  }

  /** An iteration that leaves the loop, at the target or on abort, does
      not fail with the early-Ready message. */
  lemma LeavingNotReadyFailure(idx: int, abort: bool, faulty: set<Command>, trace: seq<Snapshot>)
    requires |trace| >= 3 && (trace[1].lastSaved == idx || abort)
    ensures Loop(idx, abort, faulty, trace).outcome != Failed(ReadyIncomplete)
  {
    var polls := [Poll(trace[0]), Poll(trace[1]), Poll(trace[2])];
    var t := trace[3..];
    if trace[1].lastSaved == idx {
      AfterLoopNotReadyFailure(t);
      assert Loop(idx, abort, faulty, trace).outcome == AfterLoop(t).outcome;
    } else {
      StoppingNotReadyFailure(faulty, t);
      assert Loop(idx, abort, faulty, trace).outcome == Stopping(faulty, t).outcome;
    }
  }

  /** What follows the loop never fails with the early-Ready message. */
  lemma AfterLoopNotReadyFailure(trace: seq<Snapshot>)
    ensures AfterLoop(trace).outcome != Failed(ReadyIncomplete)
  {
    AfterLoopVerdict(trace);
  }

  /** An iteration without target or abort whose status read is Ready
      fails there, with the three reads consumed. */
  lemma ReadyFailsHere(idx: int, abort: bool, faulty: set<Command>, trace: seq<Snapshot>)
    requires |trace| >= 3 && trace[1].lastSaved != idx && !abort && trace[2].status == AcqReady
    ensures ReadyFailedAt(idx, abort, trace, Loop(idx, abort, faulty, trace))
  {
    var polls := [Poll(trace[0]), Poll(trace[1]), Poll(trace[2])];
    assert Loop(idx, abort, faulty, trace) == Run(Failed(ReadyIncomplete), polls, trace[3..]);
  }

  /** The abort branch never fails with the early-Ready message. */
  lemma StoppingNotReadyFailure(faulty: set<Command>, trace: seq<Snapshot>)
    ensures Stopping(faulty, trace).outcome != Failed(ReadyIncomplete)
  {
    if Command.Stop !in faulty && trace != [] {
      AfterLoopNotReadyFailure(trace[1..]);
    }
  }

  /** `start(abort)` fails because the detector is Ready too early only as
      the loop does: `startAcq` reads nothing. */
  lemma StartReadyFails(nbFrames: int, abort: bool, faulty: set<Command>, trace: seq<Snapshot>)
    ensures ReadyFailedAt(nbFrames - 1, abort, trace, StartSpec(nbFrames, abort, faulty, trace))
  {
    if Command.Start !in faulty {
      LoopReadyFails(nbFrames - 1, abort, faulty, trace);
    }
  }

  /** After ten reads that are not Ready, the eleventh read decides: it
      passes when Ready and otherwise fails with its own code. */
  lemma AfterTimeout(trace: seq<Snapshot>)
    requires |trace| > WaitTimeout
    requires forall i :: 0 <= i < WaitTimeout ==> trace[i].status != AcqReady
    ensures var r := AfterLoop(trace);
            r.rest == trace[WaitTimeout + 1..] &&
            (r.outcome == Passed <==> trace[WaitTimeout].status == AcqReady) &&
            (r.outcome != Passed ==> r.outcome == Failed(NotReady(StatusCode(trace[WaitTimeout].status))))
  {
    SettleTimesOut(trace, WaitTimeout);
    var rest := trace[WaitTimeout..];
    assert rest[0] == trace[WaitTimeout] && rest[1..] == trace[WaitTimeout + 1..];
  }

  /** Unlike the current monitor, the failure after the loop reports the
      status of the final read: a run that sees its target at the first
      look, then stays not Ready through the ten settle polls, is decided by
      the fourteenth read alone. */
  lemma TargetThenTimeout(nbFrames: int, abort: bool, faulty: set<Command>, trace: seq<Snapshot>)
    requires Command.Start !in faulty
    requires |trace| > 3 + WaitTimeout && trace[1].lastSaved == nbFrames - 1
    requires forall i :: 3 <= i < 3 + WaitTimeout ==> trace[i].status != AcqReady
    ensures var r := StartSpec(nbFrames, abort, faulty, trace);
            r.rest == trace[4 + WaitTimeout..] &&
            (r.outcome == Passed <==> trace[3 + WaitTimeout].status == AcqReady) &&
            (r.outcome != Passed ==> r.outcome == Failed(NotReady(StatusCode(trace[3 + WaitTimeout].status))))
  {
    var t := trace[3..];
    assert forall i :: 0 <= i < WaitTimeout ==> t[i] == trace[3 + i];
    AfterTimeout(t);
    assert t[WaitTimeout + 1..] == trace[4 + WaitTimeout..];
    assert Loop(nbFrames - 1, abort, faulty, trace) == Then([Poll(trace[0]), Poll(trace[1]), Poll(trace[2])], AfterLoop(t));
  }

  /** The detector of `LimaTestSuite/LimaCCDDetector.py`. */
  class LimaDetector {
    /** `self.ct` with its `ct_acq` and `ct_save`, as the plugin built it. */
    const ct: CtControl
    /** The `_<ConstantName>` tables of the detector object. */
    const tables: Tables := LegacyTables
    /** `_AcqConfig` and `_SavingConfig`: kept for the two print methods,
        never written to the hardware by this class. */
    var acqConfig: Dict
    var savingConfig: Dict

    /** `LimaDetector(config)`: `init` found `ct`; the test's
        configuration is stored, not applied. */
    constructor (ct: CtControl, acq: Dict, saving: Dict)
      ensures this.ct == ct && acqConfig == acq && savingConfig == saving
    {
      this.ct := ct;
      acqConfig := acq;
      savingConfig := saving;
    }

    /** `update_acq_params(config)`: read, translate, write back; a value
        that cannot be translated raises before the write. */
    method UpdateAcqParams(config: Dict) returns (ok: bool)
      modifies ct`acqPars, ct`log
      ensures var u := Updated(tables, config, old(ct.acqPars));
              (ok <==> u.Some?) &&
              (ok ==> ct.acqPars == u.value && ct.log == old(ct.log) + [SetAcqPars(u.value)]) &&
              (!ok ==> ct.acqPars == old(ct.acqPars) && ct.log == old(ct.log))
    {
      var p := ct.GetPars();
      var u := UpdateConfigFromDict(tables, config, p);
      if u.None? {
        return false;
      }
      ct.SetPars(u.value);
      ok := true;
    }

    /** `update_saving_params(config)` */
    method UpdateSavingParams(config: Dict) returns (ok: bool)
      modifies ct`savingPars, ct`log
      ensures var u := Updated(tables, config, old(ct.savingPars));
              (ok <==> u.Some?) &&
              (ok ==> ct.savingPars == u.value && ct.log == old(ct.log) + [SetSavingPars(u.value)]) &&
              (!ok ==> ct.savingPars == old(ct.savingPars) && ct.log == old(ct.log))
    {
      var p := ct.GetParameters();
      var u := UpdateConfigFromDict(tables, config, p);
      if u.None? {
        return false;
      }
      ct.SetParameters(u.value);
      ok := true;
    }

    /** `set_acq_parameters(exp_time, frames, latency=0, trigger='Internal',
        acq_mode='single')`:
        the five values go straight to the hardware; `_AcqConfig` is left
        as it was. */
    method SetAcqParameters(expTime: Value, frames: Value, latency: Value := DefaultLatency,
                            trigger: Value := DefaultTrigger, acqMode: Value := DefaultAcqMode)
      returns (ok: bool)
      modifies ct`acqPars, ct`log
      ensures var u := Updated(tables, AcqParameters(expTime, frames, latency, trigger, acqMode), old(ct.acqPars));
              (ok <==> u.Some?) &&
              (ok ==> ct.acqPars == u.value && ct.log == old(ct.log) + [SetAcqPars(u.value)]) &&
              (!ok ==> ct.acqPars == old(ct.acqPars) && ct.log == old(ct.log))
    {
      ok := UpdateAcqParams(AcqParameters(expTime, frames, latency, trigger, acqMode));
    }

    /** `set_saving_parameters(directory, prefix, suffix, format,
        mode='auto_frame', overwrite='overwrite')`: the format goes under the `'fileFormat '` key. */
    method SetSavingParameters(directory: Value, prefix: Value, suffix: Value, format: Value,
                               mode: Value := DefaultSavingMode, overwrite: Value := DefaultOverwrite)
      returns (ok: bool)
      modifies ct`savingPars, ct`log
      ensures var u := Updated(tables, SavingParameters(directory, prefix, suffix, format, mode, overwrite), old(ct.savingPars));
              (ok <==> u.Some?) &&
              (ok ==> ct.savingPars == u.value && ct.log == old(ct.log) + [SetSavingPars(u.value)]) &&
              (!ok ==> ct.savingPars == old(ct.savingPars) && ct.log == old(ct.log))
    {
      ok := UpdateSavingParams(SavingParameters(directory, prefix, suffix, format, mode, overwrite));
    }

    /** `prepare_acq()`: an exception of `prepareAcq` is not wrapped. */
    method PrepareAcq() returns (ok: bool)
      modifies ct`log
      ensures ct.log == old(ct.log) + [Call(Prepare)] && (ok <==> Prepare !in ct.faulty)
    {
      ok := ct.PrepareAcq();
    }

    /** `stop()`: false for the `RuntimeError` raised when `stopAcq`
        raises. */
    method Stop() returns (ok: bool)
      modifies ct`log
      ensures ct.log == old(ct.log) + [Call(Command.Stop)] && (ok <==> Command.Stop !in ct.faulty)
    {
      ok := ct.StopAcq();
    }

    /** `status()`: false for the `RuntimeError` raised when `Status()`
        raises. */
    method Status() returns (ok: bool)
      modifies ct`log
      ensures ct.log == old(ct.log) + [Call(StatusQuery)] && (ok <==> StatusQuery !in ct.faulty)
    {
      ok := ct.Status();
    }

    /** `ct.getStatus().AcquisitionStatus` */
    method AcqStatus() returns (r: Option<AcqStatus>)
      modifies ct`trace, ct`log
      ensures old(ct.trace) == [] ==> r.None? && ct.trace == [] && ct.log == old(ct.log)
      ensures old(ct.trace) != [] ==> r == Some(old(ct.trace)[0].status) && ct.trace == old(ct.trace)[1..] &&
                                      ct.log == old(ct.log) + [Poll(old(ct.trace)[0])]
    {
      var s := ct.GetStatus();
      r := if s.Some? then Some(s.value.status) else None;
    }

    /** The last status read. */
    method ReadFinal() returns (outcome: Outcome)
      modifies ct`trace, ct`log
      ensures var r := FinalRead(old(ct.trace));
              outcome == r.outcome && ct.log == old(ct.log) + r.events && ct.trace == r.rest
    {
      var s := ct.GetStatus();
      if s.None? {
        return Exhausted;
      }
      if s.value.status != AcqReady {
        return Failed(NotReady(StatusCode(s.value.status)));
      }
      outcome := Passed;
    }

    /** `for i in range(n)`: polls until Ready, sleeping a second after each
        other status; `ended` when the script runs out. */
    method WaitReady(n: nat) returns (ended: bool)
      modifies ct`trace, ct`log
      ensures var st := Settle(old(ct.trace), n);
              ended == st.ended && ct.log == old(ct.log) + st.events && ct.trace == st.rest
    {
      ghost var whole := Settle(ct.trace, n);
      ghost var done: seq<Event> := [];
      var i := 0;
      while i < n
        invariant 0 <= i <= n
        invariant ct.log == old(ct.log) + done
        invariant whole == Prepend(done, Settle(ct.trace, n - i))
      {
        ghost var t := ct.trace;
        var s := AcqStatus();
        if s.None? {
          return true;
        }
        if s.value == AcqReady {
          return false;
        }
        ct.Sleep(Seconds(1));
        SettleUnfold(t, n - i, done);
        Logged(old(ct.log), done, [Poll(t[0]), Slept(Seconds(1))]);
        done := done + [Poll(t[0]), Slept(Seconds(1))];
        i := i + 1;
      }
      ended := false;
    }

    /** The settle loop after the main loop, then the last status read. */
    method Conclude() returns (outcome: Outcome)
      modifies ct`trace, ct`log
      ensures var r := AfterLoop(old(ct.trace));
              outcome == r.outcome && ct.log == old(ct.log) + r.events && ct.trace == r.rest
    {
      ghost var st := Settle(ct.trace, WaitTimeout);
      var ended := WaitReady(WaitTimeout);
      if ended {
        return Exhausted;
      }
      ghost var log1 := ct.log;
      outcome := ReadFinal();
      Logged(old(ct.log), st.events, FinalRead(st.rest).events);
    }

    /** The abort branch. */
    method Abort() returns (outcome: Outcome)
      modifies ct`trace, ct`log
      ensures var r := Stopping(ct.faulty, old(ct.trace));
              outcome == r.outcome && ct.log == old(ct.log) + r.events && ct.trace == r.rest
    {
      var ok := Stop();
      if !ok {
        return Errored(Command.Stop);
      }
      ct.Sleep(Seconds(3));
      ghost var t := ct.trace;
      var debug := ct.GetStatus();
      if debug.None? {
        return Exhausted;
      }
      ghost var pre := [Call(Command.Stop), Slept(Seconds(3)), Poll(t[0])];
      assert ct.log == old(ct.log) + pre;
      outcome := Conclude();
      Logged(old(ct.log), pre, AfterLoop(t[1..]).events);
    }

    /** The three fresh reads that open an iteration: last acquired image,
        last saved image and status; `None` when the script runs out. */
    method ReadThree() returns (r: Option<(int, AcqStatus)>)
      modifies ct`trace, ct`log
      ensures var t := old(ct.trace);
              |t| < 3 ==> r.None? && ct.log == old(ct.log) + PollAll(t) && ct.trace == []
      ensures var t := old(ct.trace);
              |t| >= 3 ==> r == Some((t[1].lastSaved, t[2].status)) && ct.trace == t[3..] &&
                           ct.log == old(ct.log) + [Poll(t[0]), Poll(t[1]), Poll(t[2])]
    {
      ghost var t := ct.trace;
      PollAllShort(t);
      var acquired := ct.GetStatus();
      if acquired.None? {
        return None;
      }
      var saved := ct.GetStatus();
      if saved.None? {
        return None;
      }
      var status := ct.GetStatus();
      if status.None? {
        return None;
      }
      assert ct.trace == t[1..][1..][1..] == t[3..];
      r := Some((saved.value.lastSaved, status.value.status));
    }

    /** One iteration of the `while True` loop, logging `evs`; `None` when
        the loop goes on. */
    method Iterate(idx: int, abort: bool) returns (r: Option<Outcome>, ghost evs: seq<Event>)
      modifies ct`trace, ct`log
      ensures ct.log == old(ct.log) + evs
      ensures r.Some? ==> Loop(idx, abort, ct.faulty, old(ct.trace)) == Run(r.value, evs, ct.trace)
      ensures r.None? ==> |ct.trace| < |old(ct.trace)| &&
                          Loop(idx, abort, ct.faulty, old(ct.trace)) == Then(evs, Loop(idx, abort, ct.faulty, ct.trace))
    {
      ghost var t := ct.trace;
      ghost var log0 := ct.log;
      var read := ReadThree();
      if read.None? {
        evs := PollAll(t);
        return Some(Exhausted), evs;
      }
      ghost var polls := [Poll(t[0]), Poll(t[1]), Poll(t[2])];
      var (saved, status) := read.value;
      if saved == idx {
        var outcome := Conclude();
        evs := polls + AfterLoop(t[3..]).events;
        Logged(log0, polls, AfterLoop(t[3..]).events);
        return Some(outcome), evs;
      }
      if abort {
        var outcome := Abort();
        evs := polls + Stopping(ct.faulty, t[3..]).events;
        Logged(log0, polls, Stopping(ct.faulty, t[3..]).events);
        return Some(outcome), evs;
      }
      if status == AcqReady {
        return Some(Failed(ReadyIncomplete)), polls;
      }
      ct.Sleep(CycleTime);
      var lastAcq := ct.GetStatus();
      if lastAcq.None? {
        return Some(Exhausted), polls + [Slept(CycleTime)];
      }
      evs := polls + [Slept(CycleTime), Poll(t[3])];
      Logged(log0, polls, [Slept(CycleTime)]);
      Logged(log0, polls + [Slept(CycleTime)], [Poll(t[3])]);
      assert polls + [Slept(CycleTime)] + [Poll(t[3])] == evs;
      assert ct.trace == t[3..][1..];
      r := None;
    }

    /** The `while True` loop and what follows it, for target image `idx`.
        `counter` is only ever incremented: the branch that would read it
        is `if False`. */
    method WatchLoop(idx: int, abort: bool) returns (outcome: Outcome)
      modifies ct`trace, ct`log
      ensures var w := Loop(idx, abort, ct.faulty, old(ct.trace));
              outcome == w.outcome && ct.log == old(ct.log) + w.events && ct.trace == w.rest
    {
      var counter := 0;
      ghost var whole := Loop(idx, abort, ct.faulty, ct.trace);
      ghost var done: seq<Event> := [];
      while true
        invariant ct.log == old(ct.log) + done
        invariant whole == Then(done, Loop(idx, abort, ct.faulty, ct.trace))
        decreases |ct.trace|
      {
        var r, evs := Iterate(idx, abort);
        if r.Some? {
          assert whole == Then(done, Run(r.value, evs, ct.trace));
          Logged(old(ct.log), done, evs);
          done := done + evs;
          return r.value;
        }
        ThenThen(done, evs, Loop(idx, abort, ct.faulty, ct.trace));
        Logged(old(ct.log), done, evs);
        done := done + evs;
        counter := counter + 1;
      }
    }

    /** `start(abort)`; `Failed` and `Errored` stand for the
        `RuntimeError`s it raises. */
    method Start(abort: bool) returns (outcome: Outcome)
      requires ct.AcqNbFrames().Some?
      modifies ct`trace, ct`log
      ensures var r := StartSpec(old(ct.AcqNbFrames()).value, abort, ct.faulty, old(ct.trace));
              outcome == r.outcome && ct.log == old(ct.log) + r.events && ct.trace == r.rest
    {
      var ok := ct.StartAcq();
      if !ok {
        return Errored(Command.Start);
      }
      var idx := ct.AcqNbFrames().value - 1;
      ghost var log0 := ct.log;
      outcome := WatchLoop(idx, abort);
      ghost var w := Loop(idx, abort, ct.faulty, old(ct.trace));
      assert ct.log == log0 + w.events;
      Logged(old(ct.log), [Call(Command.Start)], w.events);
    }
  }
}
