/** The oldest detector, `LimaDetector` of the repository's root
    `LimaCCDDetector.py`, and the defaults of its plugins' `BaseDetector`.
    Building it applies the plugin's saving defaults, then its acquisition
    defaults. Its acquisition monitor `start()` only logs a `startAcq`
    error, then reads the last saved image until it reaches the last frame,
    a quarter of the exposure time apart, and tells an ADXV viewer about
    every newer image it sees. Errors of `stop`, `status` and `delete` are
    logged, not raised. */
module LegacyDetector {
  import opened Common
  import opened LimaCore
  import opened Monitor
  import opened Translate
  import opened Lookup

  /** `BaseDetector._AcqDefaults`, with its `lattencyTime` spelling. */
  const BaseAcqDefaults: Dict :=
    map["acqExpoTime" := Int(1), "acqNbFrames" := Int(10), "acqMode" := Str("Single"),
        "triggerMode" := Str("Internal"), "lattencyTime" := Int(0)]

  /** `BaseDetector._SavingDefaults` */
  const BaseSavingDefaults: Dict :=
    map["directory" := Str("./"), "prefix" := Str("img_"), "suffix" := Str(".cbf"),
        "fileFormat" := Str("CBF"), "savingMode" := Str("AUTO_FRAME"), "overwritePolicy" := Str("OVERWRITE")]

  /** The base acquisition defaults spell the latency `lattencyTime`: when
      they are applied, that name is set as a parameter of its own and the
      latency the structure had is kept as it was. */
  lemma BaseAcqDefaultsKeepLatency(params: Dict)
    ensures var u := Updated(LegacyTables, BaseAcqDefaults, params);
            u.Some? ==>
              "lattencyTime" in u.value &&
              ("latencyTime" in u.value <==> "latencyTime" in params) &&
              ("latencyTime" in params ==> u.value["latencyTime"] == params["latencyTime"])
  {
    if Updated(LegacyTables, BaseAcqDefaults, params).Some? {
      UpdatedKeepsOthers(LegacyTables, BaseAcqDefaults, params);
      assert "latencyTime" !in BaseAcqDefaults by {
        assert "lattencyTime"[3] == 't' && "latencyTime"[3] == 'e';
      }
    }
  }

  /** `get_last_filename()`, given the saving `directory`, `prefix` and
      `suffix` and the last saved image `n`. */
  function LastFilename(directory: string, prefix: string, suffix: string, n: int): string {
    JoinPath(directory, prefix + ZFill(IntToString(n), 4) + suffix)
  }

  lemma {:induction false} ZerosValue(k: nat)
    ensures AllDigits(Zeros(k)) && DigitsValue(Zeros(k)) == 0
    decreases k
  {
    if k != 0 {
      ZerosValue(k - 1);
      var z := Zeros(k);
      assert z[..k - 1] == Zeros(k - 1);
    }
  }

  /** Leading zeros do not change the value of a digit string. */
  lemma {:induction false} ZerosPrefixValue(k: nat, s: string)
    requires AllDigits(s)
    ensures AllDigits(Zeros(k) + s) && DigitsValue(Zeros(k) + s) == DigitsValue(s)
    decreases |s|
  {
    var z := Zeros(k) + s;
    if s == [] {
      ZerosValue(k);
      assert z == Zeros(k);
    } else {
      var s' := s[..|s| - 1];
      ZerosPrefixValue(k, s');
      assert z[..|z| - 1] == Zeros(k) + s';
      assert z[|z| - 1] == s[|s| - 1];
    }
  }

  /** The image number written into a file name: at least four digits,
      whose value is the image index. */
  lemma ImageNumber(n: nat)
    ensures var num := ZFill(IntToString(n), 4);
            |num| >= 4 && AllDigits(num) && DigitsValue(num) == n
  {
    var s := IntToString(n);
    DigitsValueOfNatToString(n);
    if |s| < 4 {
      ZerosPrefixValue(4 - |s|, s);
    }
  }

  /** The file name of image `n` ends with the prefix, the zero-padded
      image number and the suffix; it lies in the saving directory unless
      the prefix is an absolute path. */
  lemma LastFilenameShape(directory: string, prefix: string, suffix: string, n: nat)
    ensures var num := ZFill(IntToString(n), 4);
            var base := prefix + num + suffix;
            var f := LastFilename(directory, prefix, suffix, n);
            AllDigits(num) && DigitsValue(num) == n && |num| >= 4 &&
            f[|f| - |base|..] == base &&
            (prefix == [] || prefix[0] != '/' ==>
               f == if directory == "" || directory[|directory| - 1] == '/' then directory + base
                    else directory + "/" + base)
  {
    ImageNumber(n);
    var num := ZFill(IntToString(n), 4);
    var base := prefix + num + suffix;
    if prefix == [] {
      assert base[0] == num[0];
      assert IsDigit(num[0]);
    }
  }

  /** The strings `get_last_filename` reads from the saving parameters. */
  datatype Names = Names(directory: string, prefix: string, suffix: string)

  function NamesOf(p: Dict): (r: Option<Names>)
    ensures r.Some? <==> "directory" in p && "prefix" in p && "suffix" in p &&
                         p["directory"].Str? && p["prefix"].Str? && p["suffix"].Str?
    ensures r.Some? ==> Str(r.value.directory) == p["directory"] && Str(r.value.prefix) == p["prefix"] &&
                        Str(r.value.suffix) == p["suffix"]
  {
    if "directory" in p && "prefix" in p && "suffix" in p &&
       p["directory"].Str? && p["prefix"].Str? && p["suffix"].Str?
    then Some(Names(p["directory"].s, p["prefix"].s, p["suffix"].s))
    else None
  }

  /** One notification of the viewer: the image index that triggered it
      and the image whose file is named, the last saved image of the fresh
      status read in `get_last_filename`. */
  datatype Send = Send(trigger: int, image: int)

  /** What the monitor does: its run, the notifications it sends and the
      last `last_img` it read. */
  datatype Follow = Follow(run: Run, sends: seq<Send>, last: int)

  function PrefixFollow(evs: seq<Event>, sends: seq<Send>, f: Follow): Follow {
    Follow(Then(evs, f.run), sends + f.sends, f.last)
  }

  lemma PrefixFollowTwice(a: seq<Event>, sa: seq<Send>, b: seq<Event>, sb: seq<Send>, f: Follow)
    ensures PrefixFollow(a, sa, PrefixFollow(b, sb, f)) == PrefixFollow(a + b, sa + sb, f)
  {
    ThenThen(a, b, f.run);
    assert sa + (sb + f.sends) == sa + sb + f.sends;
  }

  /** One more turn of the loop that goes on. */
  lemma Advance(whole: Follow, evs: seq<Event>, sends: seq<Send>, e: seq<Event>, more: seq<Send>, w0: Follow, w1: Follow)
    requires whole == PrefixFollow(evs, sends, w0) && w0 == PrefixFollow(e, more, w1)
    ensures whole == PrefixFollow(evs + e, sends + more, w1)
  {
    PrefixFollowTwice(evs, sends, e, more, w1);
  }

  /** One more turn of the loop, at which the script runs out. */
  lemma AdvanceEnd(whole: Follow, evs: seq<Event>, sends: seq<Send>, e: seq<Event>, more: seq<Send>, w0: Follow,
                   rest: seq<Snapshot>, last: int)
    requires whole == PrefixFollow(evs, sends, w0) && w0 == Follow(Run(Exhausted, e, rest), more, last)
    ensures whole == Follow(Run(Exhausted, evs + e, rest), sends + more, last)
  {
  }

  /** One more turn of the loop, which either ends the run or leaves `w1`
      to run. */
  lemma AdvanceTurn(whole: Follow, evs: seq<Event>, sends: seq<Send>, e: seq<Event>, more: seq<Send>, w0: Follow,
                    ended: bool, rest: seq<Snapshot>, last: int, w1: Follow)
    requires whole == PrefixFollow(evs, sends, w0)
    requires ended ==> w0 == Follow(Run(Exhausted, e, rest), more, last)
    requires !ended ==> w0 == PrefixFollow(e, more, w1)
    ensures ended ==> whole == Follow(Run(Exhausted, evs + e, rest), sends + more, last)
    ensures !ended ==> whole == PrefixFollow(evs + e, sends + more, w1)
  {
    if ended {
      AdvanceEnd(whole, evs, sends, e, more, w0, rest, last);
    } else {
      Advance(whole, evs, sends, e, more, w0, w1);
    }
  }

  /** The loop leaves once the counter reaches the target. */
  lemma AdvancePassed(whole: Follow, evs: seq<Event>, sends: seq<Send>,
                      target: int, names: Option<Names>, lastSent: int, last: int, rest: seq<Snapshot>)
    requires last >= target && whole == PrefixFollow(evs, sends, Watch(target, names, lastSent, last, rest))
    ensures whole == Follow(Run(Passed, evs, rest), sends, last)
  {
    assert evs + [] == evs && sends + [] == sends;
  }

  /** The viewer has received the lines of `sends`, then those of `more`. */
  lemma ViewerAdvance(line: int -> string, sent0: seq<string>, sends: seq<Send>, more: seq<Send>,
                      sent: seq<string>, sent1: seq<string>)
    requires sent == sent0 + SentLines(line, sends) && sent1 == sent + SentLines(line, more)
    ensures sent1 == sent0 + SentLines(line, sends + more)
  {
    SentLinesAppend(line, sends, more);
    Appended(sent0, SentLines(line, sends), SentLines(line, more));
  }

  lemma Appended<T>(x: seq<T>, a: seq<T>, b: seq<T>)
    ensures x + a + b == x + (a + b)
  {
  }

  /** The `load_image` line for an image's file under the saving
      parameters `n`. */
  function ViewerLine(n: Names): int -> string {
    i => AdxvCommand(LastFilename(n.directory, n.prefix, n.suffix, i))
  }

  /** The lines sent to the viewer for `sends`: `line` of each
      notification's image. */
  function SentLines(line: int -> string, sends: seq<Send>): (lines: seq<string>)
    ensures |lines| == |sends|
  {
    if sends == [] then [] else [line(sends[0].image)] + SentLines(line, sends[1..])
  }

  /** Each line is that of its notification's image. */
  lemma {:induction false} SentLinesAt(line: int -> string, sends: seq<Send>)
    ensures forall i :: 0 <= i < |sends| ==> SentLines(line, sends)[i] == line(sends[i].image)
  {
    if sends != [] {
      SentLinesAt(line, sends[1..]);
      assert forall i :: 1 <= i < |sends| ==> sends[i] == sends[1..][i - 1];
    }
  }

  lemma {:induction false} SentLinesAppend(line: int -> string, a: seq<Send>, b: seq<Send>)
    ensures SentLines(line, a + b) == SentLines(line, a) + SentLines(line, b)
  {
    if a == [] {
      assert a + b == b;
    } else {
      var ab := a + b;
      assert ab[0] == a[0] && ab[1..] == a[1..] + b;
      SentLinesAppend(line, a[1..], b);
      var head := [line(a[0].image)];
      assert SentLines(line, ab) == head + SentLines(line, a[1..] + b);
      assert SentLines(line, a) == head + SentLines(line, a[1..]);
      Appended(head, SentLines(line, a[1..]), SentLines(line, b));
    }
  }

  /** `while last_img < target`, from the snapshots `trace` on: sleep a
      quarter exposure, read `last_img`, then, if the viewer is on and the
      image is newer than the last one sent, read a fresh status for the
      file name and send it; otherwise read a status for the debug log. */
  function Watch(target: int, names: Option<Names>, lastSent: int, last: int, trace: seq<Snapshot>): Follow
    decreases |trace|
  {
    if last >= target then Follow(Run(Passed, [], trace), [], last)
    else if trace == [] then Follow(Run(Exhausted, [Slept(QuarterExposure)], []), [], last)
    else
      var s, t := trace[0], trace[1..];
      var pre := [Slept(QuarterExposure), Poll(s)];
      if t == [] then Follow(Run(Exhausted, pre, []), [], s.lastSaved)
      else if names.Some? && lastSent < s.lastSaved then
        PrefixFollow(pre + [Poll(t[0])], [Send(s.lastSaved, t[0].lastSaved)], Watch(target, names, s.lastSaved, s.lastSaved, t[1..]))
      else
        PrefixFollow(pre + [Poll(t[0])], [], Watch(target, names, lastSent, s.lastSaved, t[1..]))
  }

  /** `start()` on a controller configured for `nbFrames` frames. */
  function StartSpec(nbFrames: int, names: Option<Names>, trace: seq<Snapshot>): Follow {
    if trace == [] then Follow(Run(Exhausted, [Call(Command.Start)], []), [], -1)
    else PrefixFollow([Call(Command.Start), Poll(trace[0])], [], Watch(nbFrames - 1, names, -1, trace[0].lastSaved, trace[1..]))
  }

  /** `start()` after its first status read: `startAcq` and that read come
      first, then the loop with no image sent yet. */
  lemma StartFollows(nbFrames: int, names: Option<Names>, trace: seq<Snapshot>, w: Follow)
    requires trace != [] && w == Watch(nbFrames - 1, names, -1, trace[0].lastSaved, trace[1..])
    ensures StartSpec(nbFrames, names, trace) ==
            Follow(Run(w.run.outcome, [Call(Command.Start), Poll(trace[0])] + w.run.events, w.run.rest), w.sends, w.last)
  {
    assert [] + w.sends == w.sends;
  }

  /** What `start()` has done once its loop `w` ends, after `startAcq`
      and the first status read were logged on `log0` to give `log`. */
  lemma StartDone(nbFrames: int, names: Option<Names>, trace: seq<Snapshot>, log0: seq<Event>, log: seq<Event>, w: Follow)
    requires trace != [] && w == Watch(nbFrames - 1, names, -1, trace[0].lastSaved, trace[1..])
    requires log == log0 + [Call(Command.Start), Poll(trace[0])]
    ensures var f := StartSpec(nbFrames, names, trace);
            w.run.outcome == f.run.outcome && w.sends == f.sends &&
            log + w.run.events == log0 + f.run.events && w.run.rest == f.run.rest
  {
    StartFollows(nbFrames, names, trace, w);
    Logged(log0, [Call(Command.Start), Poll(trace[0])], w.run.events);
  }

  /** The loop ends normally only once `last_img` has reached the target.
      Each turn reads two snapshots, the first of them `last_img`; with `k`
      the snapshots a pass consumed, the last turn's `last_img` read is
      `trace[k - 2]` and gave the final value, every earlier turn's read
      was short of the target, and no turn ran exactly when the value the
      loop started with had already reached it. */
  lemma {:induction false} WatchExits(target: int, names: Option<Names>, lastSent: int, last: int, trace: seq<Snapshot>)
    ensures var f := Watch(target, names, lastSent, last, trace);
            var k := |trace| - |f.run.rest|;
            f.run.outcome == Passed ==>
              f.last >= target && k % 2 == 0 && (k == 0 <==> last >= target) &&
              (k == 0 ==> f.last == last) && (k >= 2 ==> trace[k - 2].lastSaved == f.last) &&
              (forall i :: 0 <= i < k - 2 && i % 2 == 0 ==> trace[i].lastSaved < target)
    ensures Watch(target, names, lastSent, last, trace).run.outcome in {Passed, Exhausted}
    ensures |Watch(target, names, lastSent, last, trace).run.rest| <= |trace|
    decreases |trace|
  {
    if last < target && |trace| >= 2 {
      var s, t := trace[0], trace[1..];
      var sent := if names.Some? && lastSent < s.lastSaved then s.lastSaved else lastSent;
      WatchExits(target, names, sent, s.lastSaved, t[1..]);
      WatchStep(target, names, lastSent, last, trace);
      assert t[1..] == trace[2..];
      var f := Watch(target, names, sent, s.lastSaved, trace[2..]);
      var w := Watch(target, names, lastSent, last, trace);
      assert w.run.outcome == f.run.outcome && w.run.rest == f.run.rest;
      if f.run.outcome == Passed {
        var k' := |trace[2..]| - |f.run.rest|;
        if k' >= 2 {
          assert trace[k'] == trace[2..][k' - 2];
        }
        assert forall i :: 2 <= i < k' && i % 2 == 0 ==> trace[i] == trace[2..][i - 2];
      }
    }
  }

  /** One turn of the loop that reads two snapshots and carries on. */
  lemma WatchStep(target: int, names: Option<Names>, lastSent: int, last: int, trace: seq<Snapshot>)
    requires last < target && |trace| >= 2
    ensures var s := trace[0];
            var notify := names.Some? && lastSent < s.lastSaved;
            var sub := Watch(target, names, if notify then s.lastSaved else lastSent, s.lastSaved, trace[2..]);
            var w := Watch(target, names, lastSent, last, trace);
            w.last == sub.last &&
            w.sends == (if notify then [Send(s.lastSaved, trace[1].lastSaved)] else []) + sub.sends
  {
    assert trace[1..][1..] == trace[2..];
  }

  /** `start()` issues `startAcq` first and ends only by passing or by
      running out of script. `last_img` is read from the first snapshot,
      then from every other one (`trace[1]`, `trace[3]`, ...); with `k` the
      snapshots a pass consumed, the last of these reads, `trace[k - 2]`
      (or `trace[0]` when no turn ran), gave the final value, at least the
      last frame `nbFrames - 1`, and every earlier one was short of it. */
  lemma StartEnds(nbFrames: int, names: Option<Names>, trace: seq<Snapshot>)
    ensures var f := StartSpec(nbFrames, names, trace);
            var k := |trace| - |f.run.rest|;
            f.run.outcome in {Passed, Exhausted} && |f.run.events| >= 1 && f.run.events[0] == Call(Command.Start) &&
            (f.run.outcome == Passed ==>
               f.last >= nbFrames - 1 && k % 2 == 1 &&
               (k == 1 ==> trace[0].lastSaved == f.last) &&
               (k >= 3 ==> trace[k - 2].lastSaved == f.last && trace[0].lastSaved < nbFrames - 1) &&
               (forall i :: 1 <= i < k - 2 && i % 2 == 1 ==> trace[i].lastSaved < nbFrames - 1))
  {
    if trace != [] {
      var first := trace[0].lastSaved;
      WatchExits(nbFrames - 1, names, -1, first, trace[1..]);
      var w := Watch(nbFrames - 1, names, -1, first, trace[1..]);
      var f := StartSpec(nbFrames, names, trace);
      assert f.run.outcome == w.run.outcome && f.run.rest == w.run.rest && f.last == w.last;
      if w.run.outcome == Passed {
        var kw := |trace[1..]| - |w.run.rest|;
        if kw >= 2 {
          assert trace[kw - 1] == trace[1..][kw - 2];
        }
        assert forall i :: 1 <= i < kw - 1 && i % 2 == 1 ==> trace[i] == trace[1..][i - 1];
      }
    }
  }

  /** How `start()` as written ends: as its loop does, or with the
      `TypeError` that `get_last_filename` raises when it calls the saving
      object `self.ct_save()`, after the events logged so far and with the
      snapshots still unread. */
  datatype Written = Completed(f: Follow) | SavingNotCallable(events: seq<Event>, rest: seq<Snapshot>)

  /** `evs` happen first, then `w`. */
  function WrittenAfter(evs: seq<Event>, w: Written): Written {
    match w
    case Completed(f) => Completed(PrefixFollow(evs, [], f))
    case SavingNotCallable(e, rest) => SavingNotCallable(evs + e, rest)
  }

  /** The `while` loop as written, with a viewer (`viewer`) or without.
      `last_img_sent` stays `-1`: the only turn that would change it raises
      in `get_last_filename` before any further read. */
  function WatchAsWritten(target: int, viewer: bool, last: int, trace: seq<Snapshot>): Written
    decreases |trace|
  {
    if last >= target then Completed(Follow(Run(Passed, [], trace), [], last))
    else if trace == [] then Completed(Follow(Run(Exhausted, [Slept(QuarterExposure)], []), [], last))
    else
      var s, t := trace[0], trace[1..];
      var pre := [Slept(QuarterExposure), Poll(s)];
      if viewer && -1 < s.lastSaved then SavingNotCallable(pre, t)
      else if t == [] then Completed(Follow(Run(Exhausted, pre, []), [], s.lastSaved))
      else WrittenAfter(pre + [Poll(t[0])], WatchAsWritten(target, viewer, s.lastSaved, t[1..]))
  }

  /** `start()` as written. */
  function StartAsWritten(nbFrames: int, viewer: bool, trace: seq<Snapshot>): Written {
    if trace == [] then Completed(Follow(Run(Exhausted, [Call(Command.Start)], []), [], -1))
    else WrittenAfter([Call(Command.Start), Poll(trace[0])], WatchAsWritten(nbFrames - 1, viewer, trace[0].lastSaved, trace[1..]))
  }

  /** Without a viewer the loop as written is the loop `Watch` models. */
  lemma {:induction false} AsWrittenWithoutViewer(target: int, lastSent: int, last: int, trace: seq<Snapshot>)
    ensures WatchAsWritten(target, false, last, trace) == Completed(Watch(target, None, lastSent, last, trace))
    decreases |trace|
  {
    if last < target && |trace| >= 2 {
      AsWrittenWithoutViewer(target, lastSent, trace[0].lastSaved, trace[2..]);
      assert trace[1..][1..] == trace[2..];
    }
  }

  /** With a viewer, the loop as written runs as `Watch` until the turn at
      which `Watch` sends its first notification, and there raises instead:
      every run in which `Watch` notifies the viewer raises as written, the
      events logged until then being a prefix of the ones `Watch` logs; a
      run that does not raise is the one `Watch` gives, and it notifies
      nobody. A raise with no notification is a run whose script ran out
      at that turn. */
  lemma {:induction false} AsWrittenUntilNotice(target: int, names: Names, last: int, trace: seq<Snapshot>)
    ensures var w, f := WatchAsWritten(target, true, last, trace), Watch(target, Some(names), -1, last, trace);
            (f.sends != [] ==> w.SavingNotCallable?) &&
            (w.Completed? ==> w.f == f && f.sends == []) &&
            (w.SavingNotCallable? ==> w.events <= f.run.events && (f.sends != [] || f.run.outcome == Exhausted))
    decreases |trace|
  {
    if last < target && |trace| >= 2 {
      var s := trace[0];
      assert trace[1..][1..] == trace[2..];
      if s.lastSaved <= -1 {
        AsWrittenUntilNotice(target, names, s.lastSaved, trace[2..]);
        var pre := [Slept(QuarterExposure), Poll(s), Poll(trace[1])];
        var w', f' := WatchAsWritten(target, true, s.lastSaved, trace[2..]), Watch(target, Some(names), -1, s.lastSaved, trace[2..]);
        assert Watch(target, Some(names), -1, last, trace) == PrefixFollow(pre, [], f');
        assert WatchAsWritten(target, true, last, trace) == WrittenAfter(pre, w');
        assert [] + f'.sends == f'.sends;
        if w'.SavingNotCallable? {
          assert pre + w'.events <= pre + f'.run.events;
        }
      } else {
        var pre := [Slept(QuarterExposure), Poll(s)];
        assert WatchAsWritten(target, true, last, trace) == SavingNotCallable(pre, trace[1..]);
        assert Watch(target, Some(names), -1, last, trace).run.events[..2] == pre;
      }
    }
  }

  /** `start()` as written sends the viewer nothing: it raises at the first
      image `start()` with a working `get_last_filename` would notify, and
      otherwise runs as `StartSpec` says. */
  lemma StartAsWrittenRaises(nbFrames: int, names: Names, trace: seq<Snapshot>)
    ensures var w, f := StartAsWritten(nbFrames, true, trace), StartSpec(nbFrames, Some(names), trace);
            (f.sends != [] ==> w.SavingNotCallable?) &&
            (w.Completed? ==> w.f == f && f.sends == [])
  {
    if trace != [] {
      AsWrittenUntilNotice(nbFrames - 1, names, trace[0].lastSaved, trace[1..]);
      var f' := Watch(nbFrames - 1, Some(names), -1, trace[0].lastSaved, trace[1..]);
      assert [] + f'.sends == f'.sends;
    }
  }

  /** Two frames, a viewer, and the saved image counter reading 0, then 1,
      then 1: as written `start()` raises at the second read, where
      `StartSpec` sends image 1 to the viewer and passes. */
  lemma ViewerStartRaises(names: Names)
    ensures var s := [Snapshot(AcqRunning, 0, 0), Snapshot(AcqRunning, 1, 1), Snapshot(AcqReady, 1, 1)];
            StartAsWritten(2, true, s).SavingNotCallable? &&
            StartSpec(2, Some(names), s) ==
              Follow(Run(Passed, [Call(Command.Start), Poll(s[0]), Slept(QuarterExposure), Poll(s[1]), Poll(s[2])], []),
                     [Send(1, 1)], 1)
  {
    var s := [Snapshot(AcqRunning, 0, 0), Snapshot(AcqRunning, 1, 1), Snapshot(AcqReady, 1, 1)];
    assert s[1..] == [s[1], s[2]] && s[1..][1..] == [s[2]] && s[1..][1..][1..] == [];
  }

  /** The image indices that trigger notifications strictly increase, each
      above the last one sent before; without a viewer nothing is sent. */
  lemma {:induction false} SendsIncrease(target: int, names: Option<Names>, lastSent: int, last: int, trace: seq<Snapshot>)
    ensures var sends := Watch(target, names, lastSent, last, trace).sends;
            (forall i :: 0 <= i < |sends| ==> sends[i].trigger > lastSent) &&
            (forall i, j :: 0 <= i < j < |sends| ==> sends[i].trigger < sends[j].trigger) &&
            (names.None? ==> sends == [])
    decreases |trace|
  {
    if last < target && |trace| >= 2 {
      var s := trace[0];
      WatchStep(target, names, lastSent, last, trace);
      if names.Some? && lastSent < s.lastSaved {
        SendsIncrease(target, names, s.lastSaved, s.lastSaved, trace[2..]);
        ConsIncreasing(Send(s.lastSaved, trace[1].lastSaved), Watch(target, names, s.lastSaved, s.lastSaved, trace[2..]).sends, lastSent);
      } else {
        SendsIncrease(target, names, lastSent, s.lastSaved, trace[2..]);
      }
    }
  }

  /** A notification above `lo`, followed by increasing notifications above
      it, is an increasing run above `lo`. */
  lemma ConsIncreasing(x: Send, sub: seq<Send>, lo: int)
    requires x.trigger > lo
    requires forall i :: 0 <= i < |sub| ==> sub[i].trigger > x.trigger
    requires forall i, j :: 0 <= i < j < |sub| ==> sub[i].trigger < sub[j].trigger
    ensures var all := [x] + sub;
            (forall i :: 0 <= i < |all| ==> all[i].trigger > lo) &&
            (forall i, j :: 0 <= i < j < |all| ==> all[i].trigger < all[j].trigger)
  {
    var all := [x] + sub;
    assert forall i :: 1 <= i < |all| ==> all[i] == sub[i - 1];
  }

  /** The images the snapshots of `trace` report as last saved. */
  function SavedImages(trace: seq<Snapshot>): (imgs: seq<int>)
    ensures |imgs| == |trace|
    ensures forall j :: 0 <= j < |trace| ==> imgs[j] == trace[j].lastSaved
  {
    if trace == [] then [] else [trace[0].lastSaved] + SavedImages(trace[1..])
  }

  /** Every notification in `sends` names one of `images`. */
  predicate NamedFrom(sends: seq<Send>, images: seq<int>) {
    forall i :: 0 <= i < |sends| ==> sends[i].image in images
  }

  lemma SavedImagesLater(trace: seq<Snapshot>, k: nat)
    requires k <= |trace|
    ensures SavedImages(trace[k..]) == SavedImages(trace)[k..]
  {
    var all, rest := SavedImages(trace), SavedImages(trace[k..]);
    forall j | 0 <= j < |rest|
      ensures rest[j] == all[k..][j]
    {
      assert rest[j] == trace[k..][j].lastSaved;
      assert trace[k..][j] == trace[k + j];
      assert all[k + j] == trace[k + j].lastSaved;
    }
  }

  lemma NamedFromLater(sends: seq<Send>, images: seq<int>, k: nat)
    requires k <= |images| && NamedFrom(sends, images[k..])
    ensures NamedFrom(sends, images)
  {
    forall i | 0 <= i < |sends|
      ensures sends[i].image in images
    {
      var j :| 0 <= j < |images[k..]| && images[k..][j] == sends[i].image;
      assert images[j + k] == images[k..][j];
    }
  }

  lemma NamedFromCons(x: Send, sends: seq<Send>, images: seq<int>)
    requires x.image in images && NamedFrom(sends, images)
    ensures NamedFrom([x] + sends, images)
  {
    var all := [x] + sends;
    assert forall i :: 1 <= i < |all| ==> all[i] == sends[i - 1];
  }

  /** Each notification names an image that a fresh status read reported
      as last saved, so the viewer only loads files of saved images. */
  lemma {:induction false} SendsNameFiles(target: int, names: Option<Names>, lastSent: int, last: int, trace: seq<Snapshot>)
    ensures var sends := Watch(target, names, lastSent, last, trace).sends;
            sends != [] ==> names.Some? && NamedFrom(sends, SavedImages(trace))
    decreases |trace|
  {
    var sends := Watch(target, names, lastSent, last, trace).sends;
    if last < target && |trace| >= 2 && sends != [] {
      var s := trace[0];
      SendsIncrease(target, names, lastSent, last, trace);
      WatchStep(target, names, lastSent, last, trace);
      var notify := lastSent < s.lastSaved;
      var sent := if notify then s.lastSaved else lastSent;
      SendsNameFiles(target, names, sent, s.lastSaved, trace[2..]);
      var sub := Watch(target, names, sent, s.lastSaved, trace[2..]).sends;
      if sub != [] {
        SavedImagesLater(trace, 2);
        NamedFromLater(sub, SavedImages(trace), 2);
      }
      if notify {
        assert SavedImages(trace)[1] == sends[0].image;
        NamedFromCons(sends[0], sub, SavedImages(trace));
      }
    }
  }

  /** The detector of the root `LimaCCDDetector.py`. */
  class LimaDetector {
    /** `self.ct` with its `ct_acq` and `ct_save`, as the plugin built it. */
    const ct: CtControl
    /** The `_<ConstantName>` tables of the detector object. */
    const tables: Tables := LegacyTables
    /** The socket to the ADXV viewer; null when `adxv_host` is not set. */
    const adxv: AdxvSocket?
    /** `_AcqConfig` and `_SavingConfig`: the plugin's defaults. */
    var acqConfig: Dict
    var savingConfig: Dict

    /** The part of `__init__` before `set_default_parameters`: `init`
        loaded the plugin, which gave `ct` and its defaults. */
    constructor (ct: CtControl, adxv: AdxvSocket?, acqDefaults: Dict, savingDefaults: Dict)
      ensures this.ct == ct && this.adxv == adxv
      ensures acqConfig == acqDefaults && savingConfig == savingDefaults
    {
      this.ct := ct;
      this.adxv := adxv;
      acqConfig := acqDefaults;
      savingConfig := savingDefaults;
    }

    /** `update_acq_params(config)`: read, translate, write back; a value
        that cannot be translated raises before the write. */
    method UpdateAcqParams(config: Dict) returns (ok: bool)
      modifies ct`acqPars, ct`log
      ensures var u := Updated(tables, config, old(ct.acqPars));
              (ok <==> u.Some?) &&
              (ok ==> ct.acqPars == u.value && ct.log == old(ct.log) + [SetAcqPars(u.value)]) &&
              (!ok ==> ct.acqPars == old(ct.acqPars) && ct.log == old(ct.log))
    {
      var p := ct.GetPars();
      var u := UpdateConfigFromDict(tables, config, p);
      if u.None? {
        return false;
      }
      ct.SetPars(u.value);
      ok := true;
    }

    /** `update_saving_params(config)` */
    method UpdateSavingParams(config: Dict) returns (ok: bool)
      modifies ct`savingPars, ct`log
      ensures var u := Updated(tables, config, old(ct.savingPars));
              (ok <==> u.Some?) &&
              (ok ==> ct.savingPars == u.value && ct.log == old(ct.log) + [SetSavingPars(u.value)]) &&
              (!ok ==> ct.savingPars == old(ct.savingPars) && ct.log == old(ct.log))
    {
      var p := ct.GetParameters();
      var u := UpdateConfigFromDict(tables, config, p);
      if u.None? {
        return false;
      }
      ct.SetParameters(u.value);
      ok := true;
    }

    /** `set_default_parameters()`: the saving defaults first, then the
        acquisition defaults. */
    method SetDefaultParameters() returns (ok: bool)
      modifies ct`acqPars, ct`savingPars, ct`log
      ensures var s := Updated(tables, savingConfig, old(ct.savingPars));
              var a := Updated(tables, acqConfig, old(ct.acqPars));
              (ok <==> s.Some? && a.Some?) &&
              (s.None? ==> ct.log == old(ct.log) && ct.savingPars == old(ct.savingPars) && ct.acqPars == old(ct.acqPars)) &&
              (s.Some? && a.None? ==> ct.log == old(ct.log) + [SetSavingPars(s.value)] &&
                                      ct.savingPars == s.value && ct.acqPars == old(ct.acqPars)) &&
              (ok ==> ct.log == old(ct.log) + [SetSavingPars(s.value), SetAcqPars(a.value)] &&
                      ct.savingPars == s.value && ct.acqPars == a.value)
    {
      ok := UpdateSavingParams(savingConfig);
      if !ok {
        return;
      }
      ok := UpdateAcqParams(acqConfig);
    }

    /** `prepare_acq()`: an exception of `prepareAcq` is not caught. */
    method PrepareAcq() returns (ok: bool)
      modifies ct`log
      ensures ct.log == old(ct.log) + [Call(Prepare)] && (ok <==> Prepare !in ct.faulty)
    {
      ok := ct.PrepareAcq();
    }

    /** `stop()`: an error of `stopAcq` is only logged. */
    method Stop()
      modifies ct`log
      ensures ct.log == old(ct.log) + [Call(Command.Stop)]
    {
      var _ := ct.StopAcq();
    }

    /** `status()`: `ct.Status()`, or nothing (`None`) when it raises. */
    method Status() returns (answered: bool)
      modifies ct`log
      ensures ct.log == old(ct.log) + [Call(StatusQuery)] && (answered <==> StatusQuery !in ct.faulty)
    {
      answered := ct.Status();
    }

    /** `delete()`: the camera's `exit()`; an error is only logged. */
    method Delete()
      modifies ct`log
      ensures ct.log == old(ct.log) + [Call(CameraExit)]
    {
      var _ := ct.Issue(CameraExit);
    }

    /** `get_last_filename()`: the saving names and a fresh status read. */
    method GetLastFilename() returns (fn: Option<string>)
      requires NamesOf(ct.savingPars).Some?
      modifies ct`trace, ct`log
      ensures var t, n := old(ct.trace), NamesOf(ct.savingPars).value;
              (t == [] ==> fn.None? && ct.trace == [] && ct.log == old(ct.log)) &&
              (t != [] ==> fn == Some(LastFilename(n.directory, n.prefix, n.suffix, t[0].lastSaved)) &&
                           ct.trace == t[1..] && ct.log == old(ct.log) + [Poll(t[0])])
    {
      var names := NamesOf(ct.savingPars).value;
      var s := ct.GetStatus();
      if s.None? {
        return None;
      }
      fn := Some(LastFilename(names.directory, names.prefix, names.suffix, s.value.lastSaved));
    }

    /** One turn of the `while` loop: a quarter exposure of sleep, a read
        of `last_img`, then a notification or a debug read. */
    method Step(ghost target: int, ghost names: Option<Names>, lastSent: int, last: int)
      returns (ended: bool, lastSent': int, last': int, ghost evs: seq<Event>, ghost sends: seq<Send>)
      requires last < target
      requires names == (if adxv != null then NamesOf(ct.savingPars) else None)
      requires adxv != null ==> names.Some?
      modifies ct`trace, ct`log, adxv
      ensures ct.log == old(ct.log) + evs && ct.savingPars == old(ct.savingPars)
      ensures adxv != null ==> adxv.sent == old(adxv.sent) + SentLines(ViewerLine(names.value), sends)
      ensures ended ==> Watch(target, names, lastSent, last, old(ct.trace)) == Follow(Run(Exhausted, evs, ct.trace), sends, last')
      ensures !ended ==> |ct.trace| < |old(ct.trace)| &&
                         Watch(target, names, lastSent, last, old(ct.trace)) ==
                         PrefixFollow(evs, sends, Watch(target, names, lastSent', last', ct.trace))
    {
      ghost var t := ct.trace;
      ct.Sleep(QuarterExposure);
      var s := ct.GetStatus();
      if s.None? {
        return true, lastSent, last, [Slept(QuarterExposure)], [];
      }
      last' := s.value.lastSaved;
      ghost var pre := [Slept(QuarterExposure), Poll(t[0])];
      if adxv != null && lastSent < last' {
        lastSent' := last';
        var fn := GetLastFilename();
        if fn.None? {
          return true, lastSent', last', pre, [];
        }
        adxv.SendImageName(fn.value);
        sends := [Send(last', t[1].lastSaved)];
        assert SentLines(ViewerLine(names.value), sends) == [AdxvCommand(fn.value)];
      } else {
        lastSent' := lastSent;
        var debug := ct.GetStatus();
        if debug.None? {
          return true, lastSent', last', pre, [];
        }
        sends := [];
      }
      evs := pre + [Poll(t[1])];
      assert ct.trace == t[1..][1..];
      ended := false;
    }

    /** `start()`: `startAcq` (an error is only logged), the first status
        read, then the loop. */
    method Start() returns (outcome: Outcome, ghost sends: seq<Send>)
      requires ct.AcqNbFrames().Some?
      requires adxv != null ==> NamesOf(ct.savingPars).Some?
      modifies ct`trace, ct`log, adxv
      ensures var names := if adxv != null then NamesOf(old(ct.savingPars)) else None;
              var f := StartSpec(old(ct.AcqNbFrames()).value, names, old(ct.trace));
              outcome == f.run.outcome && sends == f.sends &&
              ct.log == old(ct.log) + f.run.events && ct.trace == f.run.rest &&
              (adxv != null ==> adxv.sent == old(adxv.sent) + SentLines(ViewerLine(names.value), f.sends))
    {
      ghost var names := if adxv != null then NamesOf(ct.savingPars) else None;
      ghost var n, t := ct.AcqNbFrames().value, ct.trace;
      var _ := ct.StartAcq();
      var first := ct.GetStatus();
      if first.None? {
        return Exhausted, [];
      }
      ghost var log := ct.log;
      ghost var evs, final;
      outcome, evs, sends, final := WatchLoop(names, -1, first.value.lastSaved);
      StartDone(n, names, t, old(ct.log), log, Follow(Run(outcome, evs, ct.trace), sends, final));
    }

    /** The `while` loop from `last_img_sent` and `last_img` on; it reads
        the frame count again before each turn. */
    method WatchLoop(ghost names: Option<Names>, lastSent: int, last: int)
      returns (outcome: Outcome, ghost evs: seq<Event>, ghost sends: seq<Send>, ghost final: int)
      requires ct.AcqNbFrames().Some?
      requires names == (if adxv != null then NamesOf(ct.savingPars) else None)
      requires adxv != null ==> names.Some?
      modifies ct`trace, ct`log, adxv
      ensures Watch(ct.AcqNbFrames().value - 1, names, lastSent, last, old(ct.trace)) ==
              Follow(Run(outcome, evs, ct.trace), sends, final)
      ensures ct.log == old(ct.log) + evs
      ensures adxv != null ==> adxv.sent == old(adxv.sent) + SentLines(ViewerLine(names.value), sends)
    {
      var lastSent, last := lastSent, last;
      ghost var target := ct.AcqNbFrames().value - 1;
      ghost var whole := Watch(target, names, lastSent, last, ct.trace);
      ghost var sent0 := if adxv != null then adxv.sent else [];
      ghost var line := if adxv != null then ViewerLine(names.value) else (i: int) => "";
      evs, sends := [], [];
      var ended := false;
      while !ended && last < ct.AcqNbFrames().value - 1
        invariant ct.AcqNbFrames() == old(ct.AcqNbFrames()) && target == ct.AcqNbFrames().value - 1
        invariant names == (if adxv != null then NamesOf(ct.savingPars) else None)
        invariant ct.log == old(ct.log) + evs
        invariant adxv != null ==> adxv.sent == sent0 + SentLines(line, sends)
        invariant !ended ==> whole == PrefixFollow(evs, sends, Watch(target, names, lastSent, last, ct.trace))
        invariant ended ==> whole == Follow(Run(Exhausted, evs, ct.trace), sends, last)
        decreases !ended, |ct.trace|
      {
        ghost var w0 := Watch(target, names, lastSent, last, ct.trace);
        ghost var sent := if adxv != null then adxv.sent else [];
        ghost var e, more;
        ended, lastSent, last, e, more := Step(target, names, lastSent, last);
        Logged(old(ct.log), evs, e);
        if adxv != null {
          ViewerAdvance(line, sent0, sends, more, sent, adxv.sent);
        }
        AdvanceTurn(whole, evs, sends, e, more, w0, ended, ct.trace, last, Watch(target, names, lastSent, last, ct.trace));
        evs := evs + e;
        sends := sends + more;
      }
      if ended {
        outcome := Exhausted;
      } else {
        outcome := Passed;
        AdvancePassed(whole, evs, sends, target, names, lastSent, last, ct.trace);
      }
      final := last;
    }
  }

  /** `LimaDetector(det_name, host, port, adxv_host)` after `init` loaded
      the plugin: the plugin's defaults are applied, the saving ones first;
      when that raises, no detector is given. */
  method NewLegacyDetector(ct: CtControl, adxv: AdxvSocket?, acqDefaults: Dict, savingDefaults: Dict)
    returns (d: LimaDetector?)
    modifies ct`acqPars, ct`savingPars, ct`log
    ensures var s := Updated(LegacyTables, savingDefaults, old(ct.savingPars));
            var a := Updated(LegacyTables, acqDefaults, old(ct.acqPars));
            (d != null <==> s.Some? && a.Some?) &&
            (s.None? ==> ct.log == old(ct.log) && ct.savingPars == old(ct.savingPars) && ct.acqPars == old(ct.acqPars)) &&
            (s.Some? && a.None? ==> ct.log == old(ct.log) + [SetSavingPars(s.value)] &&
                                    ct.savingPars == s.value && ct.acqPars == old(ct.acqPars)) &&
            (d != null ==> ct.log == old(ct.log) + [SetSavingPars(s.value), SetAcqPars(a.value)] &&
                           ct.savingPars == s.value && ct.acqPars == a.value)
    ensures d != null ==> fresh(d) && d.ct == ct && d.adxv == adxv &&
                          d.acqConfig == acqDefaults && d.savingConfig == savingDefaults
  {
    var det := new LimaDetector(ct, adxv, acqDefaults, savingDefaults);
    var ok := det.SetDefaultParameters();
    d := if ok then det else null;
  }
}
