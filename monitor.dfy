/** What the three revisions of the acquisition monitor share: how one run
    of a monitor ends, the events it leaves in the controller's log with the
    snapshots it leaves unread, and the bounded "settle" loop that polls
    until the detector reports `AcqReady`. */
module Monitor {
  import opened Common
  import opened LimaCore

  /** Why a monitored acquisition fails: the detector is Ready before the
      target image was saved, or the status read after the loop is not
      Ready (`code` is the status code the message reports). */
  datatype Reason = ReadyIncomplete | NotReady(code: nat)

  /** The message a monitor fails (or raises `RuntimeError`) with. */
  function ReasonText(r: Reason): (text: string)
    ensures r.ReadyIncomplete? ==> text == "Acquisition finished with state=READY but images were not generated properly."
    ensures r.NotReady? ==> text == ReasonPrefix + NatToString(r.code) + "]"
  {
    match r
    case ReadyIncomplete => "Acquisition finished with state=READY but images were not generated properly."
    case NotReady(code) => ReasonPrefix + NatToString(code) + "]"
  }

  const ReasonPrefix := "Acquisition did not finished in READY state. [S"

  /** How a monitored run ends: it passes, it fails for a reason, a
      command raises, or the scripted snapshots run out first. */
  datatype Outcome = Passed | Failed(reason: Reason) | Errored(cmd: Command) | Exhausted

  /** A run of (part of) a monitor: its outcome, the events it logs and the
      snapshots still unread after it. */
  datatype Run = Run(outcome: Outcome, events: seq<Event>, rest: seq<Snapshot>)

  /** `evs` happen first, then `r`. */
  function Then(evs: seq<Event>, r: Run): (t: Run)
    ensures t.outcome == r.outcome && t.rest == r.rest && |t.events| == |evs| + |r.events|
  {
    Run(r.outcome, evs + r.events, r.rest)
  }

  lemma ThenThen(a: seq<Event>, b: seq<Event>, r: Run)
    ensures Then(a, Then(b, r)) == Then(a + b, r)
  {
    assert a + (b + r.events) == (a + b) + r.events;
  }

  /** Logging `a` and then `b` logs `a + b`. */
  lemma Logged(log: seq<Event>, a: seq<Event>, b: seq<Event>)
    ensures log + a + b == log + (a + b)
  {
  }

  /** The polls that read every remaining snapshot. */
  function PollAll(trace: seq<Snapshot>): (evs: seq<Event>)
    ensures |evs| == |trace|
    ensures forall i :: 0 <= i < |trace| ==> evs[i] == Poll(trace[i])
  {
    if trace == [] then [] else [Poll(trace[0])] + PollAll(trace[1..])
  }

  /** The polls of a settle loop and the snapshots after them; `ended` when
      the script ran out during the loop. */
  datatype Stage = Stage(events: seq<Event>, rest: seq<Snapshot>, ended: bool)

  /** `for i in range(n): if AcqReady == status: break; time.sleep(1)`,
      where each `status` is a fresh `getStatus()`. */
  function Settle(trace: seq<Snapshot>, n: nat): (st: Stage)
    ensures |st.rest| <= |trace|
    decreases n
  {
    if n == 0 then Stage([], trace, false)
    else if trace == [] then Stage([], [], true)
    else if trace[0].status == AcqReady then Stage([Poll(trace[0])], trace[1..], false)
    else
      var st := Settle(trace[1..], n - 1);
      Stage([Poll(trace[0]), Slept(Seconds(1))] + st.events, st.rest, st.ended)
  }

  /** The number of snapshots a settle loop reads. */
  function SettleReads(trace: seq<Snapshot>, n: nat): nat {
    |trace| - |Settle(trace, n).rest|
  }

  /** `evs` happen first, then the settle loop `st`. */
  function Prepend(evs: seq<Event>, st: Stage): Stage {
    Stage(evs + st.events, st.rest, st.ended)
  }

  /** One turn of a settle loop that has not yet seen Ready: a poll, one
      second of sleep, then the rest of the loop. */
  lemma SettleUnfold(trace: seq<Snapshot>, n: nat, done: seq<Event>)
    requires n > 0 && trace != [] && trace[0].status != AcqReady
    ensures Prepend(done, Settle(trace, n)) ==
            Prepend(done + [Poll(trace[0]), Slept(Seconds(1))], Settle(trace[1..], n - 1))
  {
    var step := [Poll(trace[0]), Slept(Seconds(1))];
    assert done + (step + Settle(trace[1..], n - 1).events) == (done + step) + Settle(trace[1..], n - 1).events;
  }

  /** A settle loop reads at most `n` snapshots and leaves the rest
      unread. */
  lemma {:induction false} SettleBound(trace: seq<Snapshot>, n: nat)
    ensures SettleReads(trace, n) <= n && Settle(trace, n).rest == trace[SettleReads(trace, n)..]
    decreases n
  {
    if n != 0 && trace != [] && trace[0].status != AcqReady {
      SettleBound(trace[1..], n - 1);
      var k' := SettleReads(trace[1..], n - 1);
      assert trace[1..][k'..] == trace[k' + 1..];
    }
  }

  /** The snapshots a settle loop reads are the first ones, in order. */
  lemma {:induction false} SettlePolls(trace: seq<Snapshot>, n: nat)
    ensures Polled(Settle(trace, n).events) == trace[..SettleReads(trace, n)]
    decreases n
  {
    if n != 0 && trace != [] {
      if trace[0].status == AcqReady {
        PolledOne(Poll(trace[0]));
        assert trace[..1] == [trace[0]];
      } else {
        SettlePolls(trace[1..], n - 1);
        SettleStep(trace, n);
      }
    }
  }

  /** One turn of a settle loop that goes on adds its snapshot in front of
      the snapshots the rest of the loop reads. */
  lemma SettleStep(trace: seq<Snapshot>, n: nat)
    requires n > 0 && trace != [] && trace[0].status != AcqReady
    requires Polled(Settle(trace[1..], n - 1).events) == trace[1..][..SettleReads(trace[1..], n - 1)]
    ensures Polled(Settle(trace, n).events) == trace[..SettleReads(trace, n)]
  {
    var sub := Settle(trace[1..], n - 1);
    var k' := SettleReads(trace[1..], n - 1);
    var two := [Poll(trace[0]), Slept(Seconds(1))];
    assert Settle(trace, n).events == two + sub.events;
    PolledAppend(two, sub.events);
    PolledOne(Slept(Seconds(1)));
    assert two[1..] == [Slept(Seconds(1))];
    assert SettleReads(trace, n) == k' + 1;
    assert trace[..k' + 1] == [trace[0]] + trace[1..][..k'];
  }

  /** A settle loop only polls and sleeps one second after each snapshot
      that is not `AcqReady`; it issues no command. */
  lemma {:induction false} SettleQuiet(trace: seq<Snapshot>, n: nat)
    ensures forall e :: e in Settle(trace, n).events ==> e.Poll? || e == Slept(Seconds(1))
    decreases n
  {
    if n != 0 && trace != [] && trace[0].status != AcqReady {
      SettleQuiet(trace[1..], n - 1);
    }
  }

  /** A settle loop that sees no Ready in its first `n` snapshots reads
      exactly `n` of them and does not run out. */
  lemma {:induction false} SettleTimesOut(trace: seq<Snapshot>, n: nat)
    requires |trace| > n
    requires forall i :: 0 <= i < n ==> trace[i].status != AcqReady
    ensures !Settle(trace, n).ended && Settle(trace, n).rest == trace[n..]
    decreases n
  {
    if n != 0 {
      var t := trace[1..];
      assert forall i :: 0 <= i < n - 1 ==> t[i] == trace[i + 1];
      SettleTimesOut(t, n - 1);
      assert t[n - 1..] == trace[n..];
    }
  }

  /** A settle loop stops short of `n` reads only at an `AcqReady` snapshot
      or when the script runs out. */
  lemma {:induction false} SettleStops(trace: seq<Snapshot>, n: nat)
    ensures var st, k := Settle(trace, n), SettleReads(trace, n);
            (st.ended <==> k < n && st.rest == [] && (k == 0 || trace[k - 1].status != AcqReady)) &&
            (!st.ended && k < n ==> k >= 1 && trace[k - 1].status == AcqReady)
    decreases n
  {
    if n != 0 && trace != [] && trace[0].status != AcqReady {
      SettleStops(trace[1..], n - 1);
      SettleBound(trace[1..], n - 1);
      var k' := SettleReads(trace[1..], n - 1);
      if k' >= 1 {
        assert trace[k'] == trace[1..][k' - 1];
      }
    }
  }

  /** Polling every snapshot records every snapshot. */
  lemma {:induction false} PolledPollAll(trace: seq<Snapshot>)
    ensures Polled(PollAll(trace)) == trace
  {
    if trace != [] {
      PolledPollAll(trace[1..]);
      assert PollAll(trace)[1..] == PollAll(trace[1..]);
    }
  }

  /** `r` reads the snapshots of `trace` in order and skips none: the
      snapshots it polls are exactly the ones it consumes, and it runs out
      only when it has consumed them all. */
  predicate ReadsInOrder(trace: seq<Snapshot>, r: Run) {
    |r.rest| <= |trace| && r.rest == trace[|trace| - |r.rest|..] &&
    Polled(r.events) == trace[..|trace| - |r.rest|] &&
    (r.outcome == Exhausted ==> r.rest == [])
  }

  /** Reading the first `k` snapshots in order, then reading the others in
      order, reads them all in order. */
  lemma ThenReads(pre: seq<Event>, trace: seq<Snapshot>, k: nat, r: Run)
    requires k <= |trace| && Polled(pre) == trace[..k] && ReadsInOrder(trace[k..], r)
    ensures ReadsInOrder(trace, Then(pre, r))
  {
    PolledAppend(pre, r.events);
    var j := |trace[k..]| - |r.rest|;
    assert trace[k..][..j] == trace[k..k + j];
    assert trace[..k + j] == trace[..k] + trace[k..k + j];
    assert trace[k..][j..] == trace[k + j..];
  }

  lemma PolledOne(e: Event)
    ensures Polled([e]) == if e.Poll? then [e.snap] else []
  {
    assert [e][1..] == [];
  }

  /** Events that are not status reads record no snapshot. */
  lemma {:induction false} PolledNone(evs: seq<Event>)
    requires forall i :: 0 <= i < |evs| ==> !evs[i].Poll?
    ensures Polled(evs) == []
  {
    if evs != [] {
      PolledNone(evs[1..]);
    }
  }

  /** The three status reads that open an iteration. */
  lemma PolledTriple(trace: seq<Snapshot>)
    requires |trace| >= 3
    ensures Polled([Poll(trace[0]), Poll(trace[1]), Poll(trace[2])]) == trace[..3]
  {
    var polls := [Poll(trace[0]), Poll(trace[1]), Poll(trace[2])];
    PolledOne(polls[2]);
    assert polls[1..][1..] == [polls[2]];
    assert trace[..3] == [trace[0], trace[1], trace[2]];
  }

  lemma PollAllShort(t: seq<Snapshot>)
    ensures |t| == 1 ==> PollAll(t) == [Poll(t[0])]
    ensures |t| == 2 ==> PollAll(t) == [Poll(t[0]), Poll(t[1])]
  {
  }
}
