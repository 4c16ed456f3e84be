/** The part of the Lima Core library the test suite drives, modelled as a
    scripted control object. `CtControl` stands for `Core.CtControl` together
    with its acquisition (`ct.acquisition()`) and saving (`ct.saving()`)
    sub-objects: two parameter structures, the commands the suite issues, and
    `getStatus()`, whose answers come from a finite script of snapshots. Every
    interaction is appended to one log, so that call orderings can be stated
    about it. The suite's `time.sleep` calls are recorded in the same log. */
module LimaCore {
  import opened Common

  /** `Core.AcqStatus`, in the library's declaration order. */
  datatype AcqStatus = AcqReady | AcqRunning | AcqFault | AcqConfig

  /** The integer `%d` prints for a status. */
  function StatusCode(s: AcqStatus): nat {
    match s
    case AcqReady => 0
    case AcqRunning => 1
    case AcqFault => 2
    case AcqConfig => 3
  }

  /** One answer of `ct.getStatus()`: the acquisition status and the image
      counters `LastImageAcquired` and `LastImageSaved`. */
  datatype Snapshot = Snapshot(status: AcqStatus, lastAcquired: int, lastSaved: int)

  /** The commands the suite sends: `prepareAcq`, `startAcq`, `stopAcq`,
      `Status()`, and the camera's `exit()`. */
  datatype Command = Prepare | Start | Stop | StatusQuery | CameraExit

  /** What a `time.sleep` waits for: the frame period read from the
      acquisition parameters (exposure plus latency), a quarter of the
      exposure time, or a whole number of seconds. */
  datatype Delay = CycleTime | QuarterExposure | Seconds(n: nat)

  datatype Event =
    | Call(cmd: Command)
    | Poll(snap: Snapshot)
    | Slept(delay: Delay)
    | SetAcqPars(acq: Dict)
    | SetSavingPars(saving: Dict)

  /** The snapshots a sequence of events observed, in order. */
  function Polled(events: seq<Event>): seq<Snapshot> {
    if events == [] then []
    else (if events[0].Poll? then [events[0].snap] else []) + Polled(events[1..])
  }

  lemma {:induction false} PolledAppend(a: seq<Event>, b: seq<Event>)
    ensures Polled(a + b) == Polled(a) + Polled(b)
    decreases |a|
  {
    if a != [] {
      assert (a + b)[0] == a[0] && (a + b)[1..] == a[1..] + b;
      PolledAppend(a[1..], b);
    } else {
      assert a + b == b;
    }
  }

  /** How many times `e` occurs in `events`. */
  function Count(events: seq<Event>, e: Event): nat {
    if events == [] then 0 else (if events[0] == e then 1 else 0) + Count(events[1..], e)
  }

  lemma {:induction false} CountAppend(a: seq<Event>, b: seq<Event>, e: Event)
    ensures Count(a + b, e) == Count(a, e) + Count(b, e)
    decreases |a|
  {
    if a != [] {
      assert (a + b)[0] == a[0] && (a + b)[1..] == a[1..] + b;
      CountAppend(a[1..], b, e);
    } else {
      assert a + b == b;
    }
  }

  lemma {:induction false} CountAbsent(a: seq<Event>, e: Event)
    ensures e !in a <==> Count(a, e) == 0
    decreases |a|
  {
    if a != [] {
      CountAbsent(a[1..], e);
      assert e in a <==> a[0] == e || e in a[1..];
    }
  }

  class CtControl {
    /** The acquisition parameters `ct_acq.getPars()` reads back. */
    var acqPars: Dict
    /** The saving parameters `ct_save.getParameters()` reads back. */
    var savingPars: Dict
    /** The answers the remaining `getStatus()` calls will get. */
    var trace: seq<Snapshot>
    var log: seq<Event>
    /** The commands that raise an exception in this scripted run. */
    const faulty: set<Command>

    constructor (acqPars: Dict, savingPars: Dict, trace: seq<Snapshot>, faulty: set<Command>)
      ensures this.acqPars == acqPars && this.savingPars == savingPars
      ensures this.trace == trace && this.faulty == faulty && log == []
    {
      this.acqPars := acqPars;
      this.savingPars := savingPars;
      this.trace := trace;
      this.faulty := faulty;
      log := [];
    }

    /** `ct_acq.getAcqNbFrames()`, when the stored frame count is an integer. */
    function AcqNbFrames(): (r: Option<int>)
      reads this`acqPars
      ensures r.Some? <==> "acqNbFrames" in acqPars && acqPars["acqNbFrames"].Int?
      ensures r.Some? ==> r.value == acqPars["acqNbFrames"].i
    {
      if "acqNbFrames" in acqPars && acqPars["acqNbFrames"].Int? then Some(acqPars["acqNbFrames"].i)
      else None
    }

    method Issue(c: Command) returns (ok: bool)
      modifies this`log
      ensures log == old(log) + [Call(c)]
      ensures ok <==> c !in faulty
    {
      log := log + [Call(c)];
      ok := c !in faulty;
    }

    /** `ct.prepareAcq()`; false when it raises. */
    method PrepareAcq() returns (ok: bool)
      modifies this`log
      ensures log == old(log) + [Call(Prepare)]
      ensures ok <==> Prepare !in faulty
    {
      ok := Issue(Prepare);
    }

    /** `ct.startAcq()`; false when it raises. */
    method StartAcq() returns (ok: bool)
      modifies this`log
      ensures log == old(log) + [Call(Start)]
      ensures ok <==> Start !in faulty
    {
      ok := Issue(Start);
    }

    /** `ct.stopAcq()`; false when it raises. */
    method StopAcq() returns (ok: bool)
      modifies this`log
      ensures log == old(log) + [Call(Stop)]
      ensures ok <==> Stop !in faulty
    {
      ok := Issue(Stop);
    }

    /** `ct.Status()`; false when it raises. What it returns is not used by
        any monitor, so it is not modelled. */
    method Status() returns (ok: bool)
      modifies this`log
      ensures log == old(log) + [Call(StatusQuery)]
      ensures ok <==> StatusQuery !in faulty
    {
      ok := Issue(StatusQuery);
    }

    /** `ct.getStatus()`: the next scripted snapshot, or `None` once the
        script is used up. */
    method GetStatus() returns (s: Option<Snapshot>)
      modifies this`trace, this`log
      ensures old(trace) == [] ==> s.None? && trace == [] && log == old(log)
      ensures old(trace) != [] ==> s == Some(old(trace)[0]) && trace == old(trace)[1..] &&
                                   log == old(log) + [Poll(old(trace)[0])]
    {
      if trace == [] {
        s := None;
      } else {
        s := Some(trace[0]);
        log := log + [Poll(trace[0])];
        trace := trace[1..];
      }
    }

    /** `time.sleep(d)` */
    method Sleep(d: Delay)
      modifies this`log
      ensures log == old(log) + [Slept(d)]
    {
      log := log + [Slept(d)];
    }

    /** `ct_acq.getPars()`: a copy of the acquisition parameters. */
    method GetPars() returns (p: Dict)
      ensures p == acqPars
    {
      p := acqPars;
    }

    /** `ct_acq.setPars(p)` */
    method SetPars(p: Dict)
      modifies this`acqPars, this`log
      ensures acqPars == p && log == old(log) + [SetAcqPars(p)]
    {
      acqPars := p;
      log := log + [SetAcqPars(p)];
    }

    /** `ct_save.getParameters()`: a copy of the saving parameters. */
    method GetParameters() returns (p: Dict)
      ensures p == savingPars
    {
      p := savingPars;
    }

    /** `ct_save.setParameters(p)` */
    method SetParameters(p: Dict)
      modifies this`savingPars, this`log
      ensures savingPars == p && log == old(log) + [SetSavingPars(p)]
    {
      savingPars := p;
      log := log + [SetSavingPars(p)];
    }
  }
}
