/** The Tango backend of the current suite, `LimaTangoDetector`
    (`LimaTestSuite/LimaTangoDetector.py`): the same queries as the core
    backend, answered by attributes of a remote Lima device server. Writing
    the configuration looks up every acquisition value, writes the seven
    acquisition attributes, then looks up every saving value and writes the
    eight saving attributes. */
module TangoDetector {
  import opened Common
  import opened LimaCore

  /** `_tango_tmode`: the device server's name for each trigger mode. */
  const TangoTriggerModes: map<string, string> :=
    map["INTERNAL" := "INTERNAL_TRIGGER",
        "INTERNAL_MULTI_TRIGGER" := "INTERNAL_TRIGGER_MULTI",
        "EXTERNAL_TRIGGER" := "EXTERNAL_TRIGGER",
        "EXTERNAL_MULTI_TRIGGER" := "EXTERNAL_TRIGGER_MULTI",
        "EXTERNAL_GATE" := "EXTERNAL_GATE"]

  /** The attributes of the device server this backend reads or writes. */
  datatype Attr =
    | AcqNbFrames | AcqExpoTime | LatencyTime | AcqTriggerMode | AcqMode | AccMaxExpoTime | ConcatNbFrames
    | SavingDirectory | SavingPrefix | SavingSuffix | SavingFormat | SavingFramePerFile | SavingMode
    | SavingOverwritePolicy | SavingNextNumber
    | LastImageAcquired | LastImageSaved | AcqStatusAttr | AcqStatusFaultError

  /** The name of each attribute on the device server. */
  function AttrName(a: Attr): string {
    match a
    case AcqNbFrames => "acq_nb_frames"
    case AcqExpoTime => "acq_expo_time"
    case LatencyTime => "latency_time"
    case AcqTriggerMode => "acq_trigger_mode"
    case AcqMode => "acq_mode"
    case AccMaxExpoTime => "acc_max_expo_time"
    case ConcatNbFrames => "concat_nb_frames"
    case SavingDirectory => "saving_directory"
    case SavingPrefix => "saving_prefix"
    case SavingSuffix => "saving_suffix"
    case SavingFormat => "saving_format"
    case SavingFramePerFile => "saving_frame_per_file"
    case SavingMode => "saving_mode"
    case SavingOverwritePolicy => "saving_overwrite_policy"
    case SavingNextNumber => "saving_next_number"
    case LastImageAcquired => "last_image_acquired"
    case LastImageSaved => "last_image_saved"
    case AcqStatusAttr => "acq_status"
    case AcqStatusFaultError => "acq_status_fault_error"
  }

  /** One `write_attribute(attr, value)`. */
  datatype Write = Write(attr: Attr, value: Value)

  /** The attributes after `writes`, in order, on top of `attrs`. */
  function Apply(attrs: map<Attr, Value>, writes: seq<Write>): map<Attr, Value>
    decreases |writes|
  {
    if writes == [] then attrs else Apply(attrs[writes[0].attr := writes[0].value], writes[1..])
  }

  lemma {:induction false} ApplySnoc(attrs: map<Attr, Value>, writes: seq<Write>, w: Write)
    ensures Apply(attrs, writes + [w]) == Apply(attrs, writes)[w.attr := w.value]
    decreases |writes|
  {
    if writes != [] {
      assert (writes + [w])[1..] == writes[1..] + [w];
      ApplySnoc(attrs[writes[0].attr := writes[0].value], writes[1..], w);
    } else {
      assert [w][1..] == [];
    }
  }

  lemma {:induction false} ApplyAppend(attrs: map<Attr, Value>, a: seq<Write>, b: seq<Write>)
    ensures Apply(attrs, a + b) == Apply(Apply(attrs, a), b)
    decreases |a|
  {
    if a != [] {
      assert (a + b)[1..] == a[1..] + b;
      ApplyAppend(attrs[a[0].attr := a[0].value], a[1..], b);
    } else {
      assert a + b == b;
    }
  }

  /** An attribute no write names keeps its value. */
  lemma {:induction false} ApplyUntouched(attrs: map<Attr, Value>, writes: seq<Write>, a: Attr)
    requires forall i :: 0 <= i < |writes| ==> writes[i].attr != a
    ensures (a in Apply(attrs, writes) <==> a in attrs) && (a in attrs ==> Apply(attrs, writes)[a] == attrs[a])
    decreases |writes|
  {
    if writes != [] {
      assert forall i :: 0 <= i < |writes[1..]| ==> writes[1..][i] == writes[i + 1];
      ApplyUntouched(attrs[writes[0].attr := writes[0].value], writes[1..], a);
    }
  }

  /** No two writes name the same attribute. */
  predicate Distinct(writes: seq<Write>) {
    forall i, j :: 0 <= i < j < |writes| ==> writes[i].attr != writes[j].attr
  }

  /** The position of each written attribute in `write_config_hw`. */
  function Rank(a: Attr): nat {
    match a
    case AcqNbFrames => 0
    case AcqExpoTime => 1
    case LatencyTime => 2
    case AcqTriggerMode => 3
    case AcqMode => 4
    case AccMaxExpoTime => 5
    case ConcatNbFrames => 6
    case SavingDirectory => 7
    case SavingPrefix => 8
    case SavingSuffix => 9
    case SavingFormat => 10
    case SavingFramePerFile => 11
    case SavingMode => 12
    case SavingOverwritePolicy => 13
    case SavingNextNumber => 14
    case LastImageAcquired => 15
    case LastImageSaved => 16
    case AcqStatusAttr => 17
    case AcqStatusFaultError => 18
  }

  /** Writes in the order of their ranks name different attributes. */
  lemma RankedDistinct(writes: seq<Write>)
    requires forall i :: 0 <= i < |writes| ==> Rank(writes[i].attr) == i
    ensures Distinct(writes)
  {
  }

  /** With distinct attributes, each holds the value written to it. */
  lemma {:induction false} ApplyDistinct(attrs: map<Attr, Value>, writes: seq<Write>, i: nat)
    requires Distinct(writes) && i < |writes|
    ensures writes[i].attr in Apply(attrs, writes) && Apply(attrs, writes)[writes[i].attr] == writes[i].value
    decreases i
  {
    var rest := writes[1..];
    var attrs' := attrs[writes[0].attr := writes[0].value];
    assert forall j :: 0 <= j < |rest| ==> rest[j] == writes[j + 1];
    if i == 0 {
      ApplyUntouched(attrs', rest, writes[0].attr);
    } else {
      assert writes[i] == rest[i - 1];
      ApplyDistinct(attrs', rest, i - 1);
    }
  }

  /** The writes of `ws` that a server refusing `rejected` carries out:
      the longest prefix before the first refused write, whose `DevFailed`
      ends the sequence. */
  function Performed(ws: seq<Write>, rejected: set<Write>): (p: seq<Write>)
    ensures |p| <= |ws| && p == ws[..|p|]
    ensures forall i :: 0 <= i < |p| ==> p[i] !in rejected
    ensures |p| < |ws| ==> ws[|p|] in rejected
    decreases |ws|
  {
    if ws == [] || ws[0] in rejected then []
    else
      var rest := Performed(ws[1..], rejected);
      assert ws[1..][..|rest|] == ws[1..|rest| + 1];
      [ws[0]] + rest
  }

  /** The writes carried out are the first `i` when those are accepted and
      the next one, if any, is refused. */
  lemma PerformedIs(ws: seq<Write>, rejected: set<Write>, i: nat)
    requires i <= |ws| && (forall j :: 0 <= j < i ==> ws[j] !in rejected)
    requires i < |ws| ==> ws[i] in rejected
    ensures Performed(ws, rejected) == ws[..i]
  {
  }

  /** Writing `a` then `b` goes on into `b` only when all of `a` is
      carried out. */
  lemma {:induction false} PerformedAppend(a: seq<Write>, b: seq<Write>, rejected: set<Write>)
    ensures Performed(a + b, rejected) ==
              if Performed(a, rejected) == a then a + Performed(b, rejected) else Performed(a, rejected)
    decreases |a|
  {
    if a == [] {
      assert a + b == b;
    } else if a[0] !in rejected {
      assert (a + b)[0] == a[0] && (a + b)[1..] == a[1..] + b;
      PerformedAppend(a[1..], b, rejected);
      assert Performed(a, rejected) == [a[0]] + Performed(a[1..], rejected);
      if Performed(a[1..], rejected) == a[1..] {
        assert [a[0]] + (a[1..] + Performed(b, rejected)) == a + Performed(b, rejected);
      }
    } else {
      assert (a + b)[0] == a[0];
    }
  }

  /** The trigger mode the device server gets: the configured string,
      upper-cased, through `_tango_tmode`; `None` (a `KeyError`, or an
      `AttributeError` for a value that is not a string) otherwise. */
  function TangoTrigger(modes: map<string, string>, v: Value): (r: Option<Value>)
    ensures r.Some? <==> v.Str? && Upper(v.s) in modes
  {
    if v.Str? && Upper(v.s) in modes then Some(Str(modes[Upper(v.s)])) else None
  }

  /** The trigger mode is looked up whatever the case of the configured
      string, and every value written is a name of the device server. */
  lemma TangoTriggerIgnoresCase(modes: map<string, string>, s: string)
    ensures TangoTrigger(modes, Str(s)) == TangoTrigger(modes, Str(Upper(s)))
    ensures TangoTrigger(modes, Str(s)).Some? ==> TangoTrigger(modes, Str(s)).value.s in modes.Values
  {
    UpperIdempotent(s);
  }

  /** The configuration keys read for the acquisition. */
  const AcqKeys: set<string> :=
    {"acqExpoTime", "acqNbFrames", "acqMode", "triggerMode", "latencyTime", "accMaxExpoTime", "concatNbFrames"}

  /** The configuration keys read for saving; `nbframes` is read but never
      written. */
  const SavingKeys: set<string> :=
    {"directory", "prefix", "suffix", "nextNumber", "fileFormat", "savingMode", "overwritePolicy",
     "framesPerFile", "nbframes"}

  /** The acquisition writes, in the order of the source; `None` when a
      value cannot be read. */
  function AcqWrites(modes: map<string, string>, acq: Dict): Option<seq<Write>> {
    if "acqExpoTime" in acq && "acqNbFrames" in acq && "acqMode" in acq && "triggerMode" in acq &&
       "latencyTime" in acq && "accMaxExpoTime" in acq && "concatNbFrames" in acq &&
       TangoTrigger(modes, acq["triggerMode"]).Some?
    then
      Some([Write(AcqNbFrames, acq["acqNbFrames"]),
            Write(AcqExpoTime, acq["acqExpoTime"]),
            Write(LatencyTime, acq["latencyTime"]),
            Write(AcqTriggerMode, TangoTrigger(modes, acq["triggerMode"]).value),
            Write(AcqMode, acq["acqMode"]),
            Write(AccMaxExpoTime, acq["accMaxExpoTime"]),
            Write(ConcatNbFrames, acq["concatNbFrames"])])
    else None
  }

  /** The saving writes, in the order of the source; `None` when a value
      cannot be read. */
  function SavingWrites(saving: Dict): Option<seq<Write>> {
    if "directory" in saving && "prefix" in saving && "suffix" in saving && "nextNumber" in saving &&
       "fileFormat" in saving && "savingMode" in saving && "overwritePolicy" in saving &&
       "framesPerFile" in saving && "nbframes" in saving
    then
      Some([Write(SavingDirectory, saving["directory"]),
            Write(SavingPrefix, saving["prefix"]),
            Write(SavingSuffix, saving["suffix"]),
            Write(SavingFormat, saving["fileFormat"]),
            Write(SavingFramePerFile, saving["framesPerFile"]),
            Write(SavingMode, saving["savingMode"]),
            Write(SavingOverwritePolicy, saving["overwritePolicy"]),
            Write(SavingNextNumber, saving["nextNumber"])])
    else None
  }

  /** What one `write_config_hw` does: whether it completes and the writes
      it makes before it completes or raises. */
  datatype TangoWrite = TangoWrite(ok: bool, writes: seq<Write>)

  function WriteConfig(modes: map<string, string>, acq: Dict, saving: Dict, rejected: set<Write>): TangoWrite {
    Sequenced(AcqWrites(modes, acq), SavingWrites(saving), rejected)
  }

  /** The acquisition group, then, once all its writes are made, the saving
      group; either group may fail to read, and the writes stop at the first
      refused one. */
  function Sequenced(acq: Option<seq<Write>>, saving: Option<seq<Write>>, rejected: set<Write>): TangoWrite {
    match acq
    case None => TangoWrite(false, [])
    case Some(a) =>
      var pa := Performed(a, rejected);
      if pa != a then TangoWrite(false, pa)
      else
        match saving
        case None => TangoWrite(false, a)
        case Some(s) =>
          var ps := Performed(s, rejected);
          TangoWrite(ps == s, a + ps)
  }

  /** A group that does not read, or whose writes are refused, ends the run
      there: the device is left as that group left it. */
  lemma SequencedStopped(attrs: map<Attr, Value>, writes: seq<Write>, acq: Option<seq<Write>>,
                         saving: Option<seq<Write>>, rejected: set<Write>,
                         attrs1: map<Attr, Value>, writes1: seq<Write>)
    requires !(acq.Some? && Performed(acq.value, rejected) == acq.value)
    requires acq.None? ==> attrs1 == attrs && writes1 == writes
    requires acq.Some? ==> writes1 == writes + Performed(acq.value, rejected) &&
                           attrs1 == Apply(attrs, Performed(acq.value, rejected))
    ensures var w := Sequenced(acq, saving, rejected);
            !w.ok && writes1 == writes + w.writes && attrs1 == Apply(attrs, w.writes)
  {
    if acq.None? {
      assert writes + [] == writes;
    }
  }

  /** Once every acquisition write is made, a saving group that does not
      read ends the run with the acquisition writes alone. */
  lemma SavingUnread(acq: seq<Write>, rejected: set<Write>)
    requires Performed(acq, rejected) == acq
    ensures Sequenced(Some(acq), None, rejected) == TangoWrite(false, acq)
  {
  }

  /** Once every acquisition write is made, the run goes on with the saving
      group, whose writes apply after the acquisition ones. */
  lemma SavingWritten(attrs: map<Attr, Value>, writes: seq<Write>, acq: seq<Write>, saving: seq<Write>,
                      rejected: set<Write>, attrs2: map<Attr, Value>, writes2: seq<Write>)
    requires Performed(acq, rejected) == acq
    requires writes2 == writes + acq + Performed(saving, rejected)
    requires attrs2 == Apply(Apply(attrs, acq), Performed(saving, rejected))
    ensures var w := Sequenced(Some(acq), Some(saving), rejected);
            w.ok == (Performed(saving, rejected) == saving) &&
            writes2 == writes + w.writes && attrs2 == Apply(attrs, w.writes)
  {
    var s := Performed(saving, rejected);
    assert Sequenced(Some(acq), Some(saving), rejected) == TangoWrite(s == saving, acq + s);
    AppliedInTurn(attrs, writes, acq, s, attrs2, writes2);
  }

  /** Two groups of writes made one after the other are made as one. */
  lemma AppliedInTurn(attrs: map<Attr, Value>, writes: seq<Write>, a: seq<Write>, b: seq<Write>,
                      attrs2: map<Attr, Value>, writes2: seq<Write>)
    requires writes2 == writes + a + b && attrs2 == Apply(Apply(attrs, a), b)
    ensures writes2 == writes + (a + b) && attrs2 == Apply(attrs, a + b)
  {
    ApplyAppend(attrs, a, b);
    assert writes + a + b == writes + (a + b);
  }

  /** Every value is read before the first write: a missing acquisition
      key or an unknown trigger mode writes nothing, and the saving values
      are read only after the seven acquisition writes. The writes are
      made in the order of the source and stop at the first one the server
      refuses; the run completes exactly when all fifteen are made. */
  lemma WriteConfigOrder(modes: map<string, string>, acq: Dict, saving: Dict, rejected: set<Write>)
    ensures var w := WriteConfig(modes, acq, saving, rejected);
            var acqOk := AcqKeys <= acq.Keys && TangoTrigger(modes, acq["triggerMode"]).Some?;
            (!acqOk ==> w == TangoWrite(false, [])) &&
            (acqOk && !(SavingKeys <= saving.Keys) ==>
               !w.ok && w.writes == Performed(AcqWrites(modes, acq).value, rejected)) &&
            (acqOk && SavingKeys <= saving.Keys ==>
               var all := AcqWrites(modes, acq).value + SavingWrites(saving).value;
               |all| == 15 && w.writes == Performed(all, rejected) && (w.ok <==> w.writes == all))
  {
    if AcqKeys <= acq.Keys {
      assert "acqExpoTime" in acq && "acqNbFrames" in acq && "acqMode" in acq && "triggerMode" in acq &&
             "latencyTime" in acq && "accMaxExpoTime" in acq && "concatNbFrames" in acq;
    }
    if SavingKeys <= saving.Keys {
      assert "directory" in saving && "prefix" in saving && "suffix" in saving && "nextNumber" in saving &&
             "fileFormat" in saving && "savingMode" in saving && "overwritePolicy" in saving &&
             "framesPerFile" in saving && "nbframes" in saving;
    }
    if AcqWrites(modes, acq).Some? && SavingWrites(saving).Some? {
      PerformedAppend(AcqWrites(modes, acq).value, SavingWrites(saving).value, rejected);
    }
  }

  /** A server that refuses the first write, `acq_nb_frames`, gets no
      write at all, and `write_config_hw` raises. */
  lemma FirstWriteRefused(modes: map<string, string>, acq: Dict, saving: Dict, rejected: set<Write>)
    requires AcqWrites(modes, acq).Some? && Write(AcqNbFrames, acq["acqNbFrames"]) in rejected
    ensures WriteConfig(modes, acq, saving, rejected) == TangoWrite(false, [])
  {
    assert AcqWrites(modes, acq).value[0] == Write(AcqNbFrames, acq["acqNbFrames"]);
  }

  /** A complete write names fifteen different attributes. */
  lemma WritesDistinct(modes: map<string, string>, acq: Dict, saving: Dict, rejected: set<Write>)
    requires WriteConfig(modes, acq, saving, rejected).ok
    ensures Distinct(WriteConfig(modes, acq, saving, rejected).writes)
  {
    CompleteWritesAll(modes, acq, saving, rejected);
    AcqWritesRanked(modes, acq);
    SavingWritesRanked(saving);
    ConcatRanked(AcqWrites(modes, acq).value, SavingWrites(saving).value);
    RankedDistinct(AcqWrites(modes, acq).value + SavingWrites(saving).value);
  }

  /** The acquisition writes come in the order of their ranks. */
  lemma AcqWritesRanked(modes: map<string, string>, acq: Dict)
    requires AcqWrites(modes, acq).Some?
    ensures |AcqWrites(modes, acq).value| == 7
    ensures forall i :: 0 <= i < 7 ==> Rank(AcqWrites(modes, acq).value[i].attr) == i
  {
  }

  /** The saving writes come in the order of their ranks, after the seven
      acquisition ones. */
  lemma SavingWritesRanked(saving: Dict)
    requires SavingWrites(saving).Some?
    ensures |SavingWrites(saving).value| == 8
    ensures forall i :: 0 <= i < 8 ==> Rank(SavingWrites(saving).value[i].attr) == i + 7
  {
  }

  /** Ranked groups of seven and eight writes, one after the other, are
      ranked as a whole. */
  lemma ConcatRanked(a: seq<Write>, s: seq<Write>)
    requires |a| == 7 && forall i :: 0 <= i < 7 ==> Rank(a[i].attr) == i
    requires |s| == 8 && forall i :: 0 <= i < 8 ==> Rank(s[i].attr) == i + 7
    ensures forall i :: 0 <= i < |a + s| ==> Rank((a + s)[i].attr) == i
  {
    forall i | 0 <= i < |a + s|
      ensures Rank((a + s)[i].attr) == i
    {
      if i >= 7 {
        assert (a + s)[i] == s[i - 7];
      }
    }
  }

  /** A complete write makes every acquisition write and then every saving
      write. */
  lemma CompleteWritesAll(modes: map<string, string>, acq: Dict, saving: Dict, rejected: set<Write>)
    requires WriteConfig(modes, acq, saving, rejected).ok
    ensures AcqWrites(modes, acq).Some? && SavingWrites(saving).Some?
    ensures WriteConfig(modes, acq, saving, rejected).writes == AcqWrites(modes, acq).value + SavingWrites(saving).value
  {
  }

  /** Each written acquisition attribute holds its configuration value
      afterwards; the trigger mode holds the device server's name for it. */
  lemma AcqAttributesWritten(modes: map<string, string>, acq: Dict, saving: Dict, rejected: set<Write>,
                              attrs: map<Attr, Value>)
    requires WriteConfig(modes, acq, saving, rejected).ok
    ensures var m := Apply(attrs, WriteConfig(modes, acq, saving, rejected).writes);
            AcqNbFrames in m && m[AcqNbFrames] == acq["acqNbFrames"] &&
            AcqExpoTime in m && m[AcqExpoTime] == acq["acqExpoTime"] &&
            LatencyTime in m && m[LatencyTime] == acq["latencyTime"] &&
            AcqTriggerMode in m && m[AcqTriggerMode] == Str(modes[Upper(acq["triggerMode"].s)]) &&
            AcqMode in m && m[AcqMode] == acq["acqMode"] &&
            AccMaxExpoTime in m && m[AccMaxExpoTime] == acq["accMaxExpoTime"] &&
            ConcatNbFrames in m && m[ConcatNbFrames] == acq["concatNbFrames"]
  {
    var ws := WriteConfig(modes, acq, saving, rejected).writes;
    WritesDistinct(modes, acq, saving, rejected);
    ApplyDistinct(attrs, ws, 0);
    ApplyDistinct(attrs, ws, 1);
    ApplyDistinct(attrs, ws, 2);
    ApplyDistinct(attrs, ws, 3);
    ApplyDistinct(attrs, ws, 4);
    ApplyDistinct(attrs, ws, 5);
    ApplyDistinct(attrs, ws, 6);
  }

  /** Each written saving attribute holds its configuration value
      afterwards (`saving_next_number` that of `nextNumber`, and so on). */
  lemma SavingAttributesWritten(modes: map<string, string>, acq: Dict, saving: Dict, rejected: set<Write>,
                              attrs: map<Attr, Value>)
    requires WriteConfig(modes, acq, saving, rejected).ok
    ensures var m := Apply(attrs, WriteConfig(modes, acq, saving, rejected).writes);
            SavingDirectory in m && m[SavingDirectory] == saving["directory"] &&
            SavingPrefix in m && m[SavingPrefix] == saving["prefix"] &&
            SavingSuffix in m && m[SavingSuffix] == saving["suffix"] &&
            SavingFormat in m && m[SavingFormat] == saving["fileFormat"] &&
            SavingFramePerFile in m && m[SavingFramePerFile] == saving["framesPerFile"] &&
            SavingMode in m && m[SavingMode] == saving["savingMode"] &&
            SavingOverwritePolicy in m && m[SavingOverwritePolicy] == saving["overwritePolicy"] &&
            SavingNextNumber in m && m[SavingNextNumber] == saving["nextNumber"]
  {
    var ws := WriteConfig(modes, acq, saving, rejected).writes;
    WritesDistinct(modes, acq, saving, rejected);
    ApplyDistinct(attrs, ws, 7);
    ApplyDistinct(attrs, ws, 8);
    ApplyDistinct(attrs, ws, 9);
    ApplyDistinct(attrs, ws, 10);
    ApplyDistinct(attrs, ws, 11);
    ApplyDistinct(attrs, ws, 12);
    ApplyDistinct(attrs, ws, 13);
    ApplyDistinct(attrs, ws, 14);
  }

  /** `nbframes` must be configured, but its value never reaches the
      device. */
  lemma NbFramesNeverWritten(modes: map<string, string>, acq: Dict, saving: Dict, rejected: set<Write>, v: Value)
    ensures "nbframes" !in saving ==> !WriteConfig(modes, acq, saving, rejected).ok
    ensures "nbframes" in saving ==>
              WriteConfig(modes, acq, saving["nbframes" := v], rejected) == WriteConfig(modes, acq, saving, rejected)
  {
  }

  /** `acq_status`: the device server's status string as a Lima status;
      any string other than `'Running'` and `'Fault'` reads as Ready. */
  function StatusOf(tangoStatus: Value): (r: AcqStatus)
    ensures r == AcqRunning <==> tangoStatus == Str("Running")
    ensures r == AcqFault <==> tangoStatus == Str("Fault")
    ensures r != AcqConfig
  {
    if tangoStatus == Str("Ready") then AcqReady
    else if tangoStatus == Str("Running") then AcqRunning
    else if tangoStatus == Str("Fault") then AcqFault
    else AcqReady
  }

  /** A remote Lima device server: its attributes, the writes made to it
      and the commands run on it. */
  class Device {
    var attrs: map<Attr, Value>
    var writes: seq<Write>
    var commands: seq<Command>
    /** The commands that raise in this scripted run. */
    const faulty: set<Command>
    /** The writes the server refuses in this scripted run, with a
        `DevFailed`: an attribute it does not have, or a value it does not
        accept. */
    const rejected: set<Write>

    constructor (attrs: map<Attr, Value>, faulty: set<Command>, rejected: set<Write>)
      ensures this.attrs == attrs && this.faulty == faulty && this.rejected == rejected
      ensures writes == [] && commands == []
    {
      this.attrs := attrs;
      this.faulty := faulty;
      this.rejected := rejected;
      writes := [];
      commands := [];
    }

    /** `write_attribute(attr, value)`; false when the server refuses it
        and raises, leaving the attribute as it was. */
    method WriteAttribute(attr: Attr, value: Value) returns (ok: bool)
      modifies this`attrs, this`writes
      ensures ok <==> Write(attr, value) !in rejected
      ensures ok ==> attrs == old(attrs)[attr := value] && writes == old(writes) + [Write(attr, value)]
      ensures !ok ==> attrs == old(attrs) && writes == old(writes)
    {
      ok := Write(attr, value) !in rejected;
      if ok {
        attrs := attrs[attr := value];
        writes := writes + [Write(attr, value)];
      }
    }

    /** `read_attribute(attr).value`; `None` for an attribute the server
        does not have. */
    function ReadAttribute(attr: Attr): (r: Option<Value>)
      reads this
      ensures r.Some? <==> attr in attrs
      ensures r.Some? ==> r.value == attrs[attr]
    {
      if attr in attrs then Some(attrs[attr]) else None
    }

    /** A device command; false when it raises. */
    method Run(c: Command) returns (ok: bool)
      modifies this`commands
      ensures commands == old(commands) + [c]
      ensures ok <==> c !in faulty
    {
      commands := commands + [c];
      ok := c !in faulty;
    }
  }

  class LimaTangoDetector {
    const device: Device
    const modes: map<string, string>
    var acqConfig: Dict
    var savingConfig: Dict

    /** `LimaTangoDetector(config)` after `init_hw` found the device
        `device`, before the configuration is written. */
    constructor (device: Device, acq: Dict, saving: Dict)
      ensures this.device == device && modes == TangoTriggerModes
      ensures acqConfig == acq && savingConfig == saving
    {
      this.device := device;
      modes := TangoTriggerModes;
      acqConfig := acq;
      savingConfig := saving;
    }

    /** Writes `ws` to the device attributes, one after the other, until
        the server refuses one; false when it does. */
    method WriteAll(ws: seq<Write>) returns (ok: bool)
      modifies device`attrs, device`writes
      ensures ok <==> Performed(ws, device.rejected) == ws
      ensures device.writes == old(device.writes) + Performed(ws, device.rejected)
      ensures device.attrs == Apply(old(device.attrs), Performed(ws, device.rejected))
    {
      var i := 0;
      while i < |ws|
        invariant 0 <= i <= |ws|
        invariant forall j :: 0 <= j < i ==> ws[j] !in device.rejected
        invariant device.writes == old(device.writes) + ws[..i]
        invariant device.attrs == Apply(old(device.attrs), ws[..i])
      {
        var accepted := device.WriteAttribute(ws[i].attr, ws[i].value);
        if !accepted {
          PerformedIs(ws, device.rejected, i);
          return false;
        }
        ApplySnoc(old(device.attrs), ws[..i], ws[i]);
        assert ws[..i + 1] == ws[..i] + [ws[i]];
        i := i + 1;
      }
      PerformedIs(ws, device.rejected, i);
      assert ws[..|ws|] == ws;
      ok := true;
    }

    /** The acquisition half of `write_config_hw`: the seven values are
        read into locals, then the seven attributes written; a missing
        value or an unknown trigger mode raises before any write. */
    method WriteAcq() returns (ok: bool)
      modifies device`attrs, device`writes
      ensures ok <==> AcqWrites(modes, acqConfig).Some? && Performed(AcqWrites(modes, acqConfig).value, device.rejected) == AcqWrites(modes, acqConfig).value
      ensures AcqWrites(modes, acqConfig).None? ==> device.attrs == old(device.attrs) && device.writes == old(device.writes)
      ensures AcqWrites(modes, acqConfig).Some? ==>
                var done := Performed(AcqWrites(modes, acqConfig).value, device.rejected);
                device.writes == old(device.writes) + done && device.attrs == Apply(old(device.attrs), done)
    {
      var ws := AcqWrites(modes, acqConfig);
      if ws.None? {
        return false;
      }
      ok := WriteAll(ws.value);
    }

    /** The saving half of `write_config_hw`: the nine values are read
        into locals, then eight attributes written. */
    method WriteSaving() returns (ok: bool)
      modifies device`attrs, device`writes
      ensures ok <==> SavingWrites(savingConfig).Some? && Performed(SavingWrites(savingConfig).value, device.rejected) == SavingWrites(savingConfig).value
      ensures SavingWrites(savingConfig).None? ==> device.attrs == old(device.attrs) && device.writes == old(device.writes)
      ensures SavingWrites(savingConfig).Some? ==>
                var done := Performed(SavingWrites(savingConfig).value, device.rejected);
                device.writes == old(device.writes) + done && device.attrs == Apply(old(device.attrs), done)
    {
      var ws := SavingWrites(savingConfig);
      if ws.None? {
        return false;
      }
      ok := WriteAll(ws.value);
    }

    /** `write_config_hw`: the acquisition half, then the saving half;
        false when a lookup or a write raises. */
    method WriteConfigHw() returns (ok: bool)
      modifies device`attrs, device`writes
      ensures var w := WriteConfig(modes, acqConfig, savingConfig, device.rejected);
              ok == w.ok && device.writes == old(device.writes) + w.writes &&
              device.attrs == Apply(old(device.attrs), w.writes)
    {
      ghost var aw, sw := AcqWrites(modes, acqConfig), SavingWrites(savingConfig);
      ok := WriteAcq();
      if !ok {
        SequencedStopped(old(device.attrs), old(device.writes), aw, sw, device.rejected, device.attrs, device.writes);
        return;
      }
      ok := WriteSaving();
      if sw.None? {
        SavingUnread(aw.value, device.rejected);
      } else {
        SavingWritten(old(device.attrs), old(device.writes), aw.value, sw.value, device.rejected,
                      device.attrs, device.writes);
      }
    }

    /** `prepare_acq`: one `prepareAcq` command. */
    method PrepareAcq() returns (ok: bool)
      modifies device`commands
      ensures device.commands == old(device.commands) + [Prepare] && (ok <==> Prepare !in device.faulty)
    {
      ok := device.Run(Prepare);
    }

    /** `start`: one `startAcq` command. */
    method Start() returns (ok: bool)
      modifies device`commands
      ensures device.commands == old(device.commands) + [Command.Start] && (ok <==> Command.Start !in device.faulty)
    {
      ok := device.Run(Command.Start);
    }

    /** `stop`: one `stopAcq` command. */
    method Stop() returns (ok: bool)
      modifies device`commands
      ensures device.commands == old(device.commands) + [Command.Stop] && (ok <==> Command.Stop !in device.faulty)
    {
      ok := device.Run(Command.Stop);
    }

    /** `frames`: `acq_nb_frames` as the device reports it, with nothing
        subtracted. */
    function Frames(): (r: Option<Value>)
      reads this, device
      ensures r.Some? <==> AcqNbFrames in device.attrs
      ensures r.Some? ==> r.value == device.attrs[AcqNbFrames]
    {
      device.ReadAttribute(AcqNbFrames)
    }

    /** `last_image`: the device's `last_image_acquired`. */
    function LastImage(): (r: Option<Value>)
      reads device
      ensures r.Some? <==> LastImageAcquired in device.attrs
      ensures r.Some? ==> r.value == device.attrs[LastImageAcquired]
    {
      device.ReadAttribute(LastImageAcquired)
    }

    /** `last_image_saved`: the device's `last_image_saved`. */
    function LastImageSaved(): (r: Option<Value>)
      reads device
      ensures r.Some? <==> Attr.LastImageSaved in device.attrs
      ensures r.Some? ==> r.value == device.attrs[Attr.LastImageSaved]
    {
      device.ReadAttribute(Attr.LastImageSaved)
    }

    /** `acq_status`: the device's `acq_status` string as a Lima status. */
    function AcqStatus(): (r: Option<AcqStatus>)
      reads device
      ensures r.Some? <==> AcqStatusAttr in device.attrs
      ensures r.Some? ==> (r.value == AcqRunning <==> device.attrs[AcqStatusAttr] == Str("Running"))
      ensures r.Some? ==> (r.value == AcqFault <==> device.attrs[AcqStatusAttr] == Str("Fault"))
      ensures r.Some? ==> r.value != AcqConfig
    {
      match device.ReadAttribute(AcqStatusAttr)
      case Some(v) => Some(StatusOf(v))
      case None => None
    }

    /** `status`: the device's `acq_status_fault_error`. */
    function Status(): (r: Option<Value>)
      reads device
      ensures r.Some? <==> AcqStatusFaultError in device.attrs
      ensures r.Some? ==> r.value == device.attrs[AcqStatusFaultError]
    {
      device.ReadAttribute(AcqStatusFaultError)
    }
  }

  /** After a complete `write_config_hw`, `frames` is the configured
      `acqNbFrames` itself: the Tango backend subtracts nothing, unlike the
      core backend. */
  lemma FramesAfterWrite(d: LimaTangoDetector, attrs0: map<Attr, Value>)
    requires WriteConfig(d.modes, d.acqConfig, d.savingConfig, d.device.rejected).ok
    requires d.device.attrs == Apply(attrs0, WriteConfig(d.modes, d.acqConfig, d.savingConfig, d.device.rejected).writes)
    ensures d.Frames() == Some(d.acqConfig["acqNbFrames"])
  {
    AcqAttributesWritten(d.modes, d.acqConfig, d.savingConfig, d.device.rejected, attrs0);
  }
}
