/** The translation of a configuration dictionary into a Lima parameter
    structure (`_update_config_from_dict`), which all three detector
    revisions share, and the lookup tables each revision carries. A table is
    found through the detector attribute `_<key>`; the parameter
    structure is modelled as the map from its field names to their values. */
module Translate {
  import opened Common
  import opened Lookup

  /** One `_<ConstantName>` dictionary: upper-case names to Core constants. */
  type Table = map<string, CoreConst>

  /** The table attributes of a detector object, by attribute name. */
  type Tables = map<string, Table>

  const TriggerModeTable: Table := map[
    "INTERNAL" := IntTrig,
    "INTERNAL_MULTI_TRIGGER" := IntTrigMult,
    "EXTERNAL_TRIGGER" := ExtTrigSingle,
    "EXTERNAL_MULTI_TRIGGER" := ExtTrigMult,
    "EXTERNAL_GATE" := ExtGate]

  /** The file formats of the current detector, `FITS` spelled `FITZ`. */
  const FileFormatTable: Table := map[
    "CBF" := CBFFormat,
    "CBF_MINI_HEADER" := CBFMiniHeader,
    "EDF" := EDF,
    "EDF_CONCAT" := EDFConcat,
    "EDF_GZ" := EDFGZ,
    "EDF_LZ4" := EDFLZ4,
    "HDF5" := HDF5,
    "NXS" := NXS,
    "RAW" := RAW,
    "TIFF" := TIFFFormat,
    "FITZ" := FITS]

  /** The file formats of the two older detectors. */
  const LegacyFileFormatTable: Table := map["CBF" := CBFFormat, "EDF" := EDF]

  const AcqModeTable: Table := map["SINGLE" := Single]

  const SavingModeTable: Table := map["AUTO_FRAME" := AutoFrame, "MANUAL" := Manual]

  const OverwritePolicyTable: Table := map["OVERWRITE" := Overwrite]

  function DetectorTables(fileFormats: Table): Tables {
    map["_triggerMode" := TriggerModeTable,
        "_fileFormat" := fileFormats,
        "_acqMode" := AcqModeTable,
        "_savingMode" := SavingModeTable,
        "_overwritePolicy" := OverwritePolicyTable]
  }

  /** The tables of `LimaTestSuite/LimaDetector.py`. */
  const CurrentTables: Tables := DetectorTables(FileFormatTable)

  /** The tables of both `LimaCCDDetector.py` revisions. */
  const LegacyTables: Tables := DetectorTables(LegacyFileFormatTable)

  /** The value one configuration entry gives its parameter, or `None` for
      the exception the lookup raises: `value.upper()` on a value that is not
      a string, or a `KeyError` from the table. An empty table is falsy and
      treated like a missing one. */
  function TranslateValue(tables: Tables, key: string, v: Value): (r: Option<Value>)
    ensures (GetDict(tables, key).None? || GetDict(tables, key).value == map[]) ==> r == Some(v)
    ensures GetDict(tables, key).Some? && GetDict(tables, key).value != map[] ==>
              (r.Some? <==> v.Str? && Upper(v.s) in tables["_" + key]) &&
              (r.Some? ==> r.value == Const(tables["_" + key][Upper(v.s)]))
  {
    match GetDict(tables, key)
    case Some(t) =>
      if t == map[] then Some(v)
      else if v.Str? && Upper(v.s) in t then Some(Const(t[Upper(v.s)]))
      else None
    case None => Some(v)
  }

  /** Table lookups ignore the case of the configured string. */
  lemma TranslateIgnoresCase(tables: Tables, key: string, s: string)
    ensures TranslateValue(tables, key, Str(s)) == TranslateValue(tables, key, Str(Upper(s))) ||
            GetDict(tables, key).None? || GetDict(tables, key).value == map[]
  {
    UpperIdempotent(s);
  }

  /** A translated table value is always one of the table's constants. */
  lemma TranslatedIsTableConstant(tables: Tables, key: string, v: Value)
    requires "_" + key in tables && tables["_" + key] != map[]
    requires TranslateValue(tables, key, v).Some?
    ensures exists name :: name in tables["_" + key] &&
              TranslateValue(tables, key, v) == Some(Const(tables["_" + key][name]))
  {
    assert Upper(v.s) in tables["_" + key];
  }

  /** The parameter structure after every configuration entry has been set,
      or `None` when some entry cannot be translated. */
  function Updated(tables: Tables, config: Dict, params: Dict): Option<Dict> {
    if forall k :: k in config ==> TranslateValue(tables, k, config[k]).Some? then
      Some(map k | k in params.Keys + config.Keys ::
             if k in config then TranslateValue(tables, k, config[k]).value else params[k])
    else None
  }

  /** An update that succeeds keeps every parameter the configuration does
      not name, adds every entry it names, and nothing else. */
  lemma UpdatedKeepsOthers(tables: Tables, config: Dict, params: Dict)
    requires Updated(tables, config, params).Some?
    ensures var p := Updated(tables, config, params).value;
            p.Keys == params.Keys + config.Keys &&
            (forall k :: k in params && k !in config ==> p[k] == params[k]) &&
            (forall k :: k in config ==> p[k] == TranslateValue(tables, k, config[k]).value)
  {
  }

  /** `_update_config_from_dict(config, params)`: visits the configuration
      entries in some order and sets each parameter. Which entry is visited
      first does not matter: the run either sets all of them or stops at an
      entry that cannot be translated, and then the caller never writes
      `params` back. */
  method UpdateConfigFromDict(tables: Tables, config: Dict, params: Dict) returns (r: Option<Dict>)
    ensures r.Some? <==> forall k :: k in config ==> TranslateValue(tables, k, config[k]).Some?
    ensures r.Some? ==> r.value.Keys == params.Keys + config.Keys
    ensures r.Some? ==> forall k :: k in config ==> r.value[k] == TranslateValue(tables, k, config[k]).value
    ensures r.Some? ==> forall k :: k in params && k !in config ==> r.value[k] == params[k]
    ensures r == Updated(tables, config, params)
  {
    var p := params;
    var todo := config.Keys;
    while todo != {}
      invariant todo <= config.Keys
      invariant forall k :: k in config && k !in todo ==> TranslateValue(tables, k, config[k]).Some?
      invariant p.Keys == params.Keys + (config.Keys - todo)
      invariant forall k :: k in p ==>
                  p[k] == if k in config && k !in todo then TranslateValue(tables, k, config[k]).value else params[k]
      decreases todo
    {
      var k :| k in todo;
      var v := TranslateValue(tables, k, config[k]);
      if v.None? {
        return None;
      }
      p := p[k := v.value];
      todo := todo - {k};
    }
    r := Some(p);
    assert p == Updated(tables, config, params).value;
  }

  /** A key that names no table, such as the `'fileFormat '` key (with its
      trailing space) that the saving setters use, keeps the value as given. */
  lemma TrailingSpaceFormatKeyIsNotTranslated(v: Value)
    ensures TranslateValue(CurrentTables, "fileFormat ", v) == Some(v)
    ensures TranslateValue(LegacyTables, "fileFormat ", v) == Some(v)
  {
    var attr := "_" + "fileFormat ";
    assert |attr| == 12 && attr[1] == 'f';
    assert "_triggerMode"[1] == 't';
    assert attr !in CurrentTables && attr !in LegacyTables;
  }

  /** `FITS` is reached only through the misspelled name `FITZ`. */
  lemma FitsSpelledFitz()
    ensures TranslateValue(CurrentTables, "fileFormat", Str("fitz")) == Some(Const(FITS))
    ensures TranslateValue(CurrentTables, "fileFormat", Str("FITS")).None?
  {
    FormatNames();
    FileFormatFound();
    FitsMissing();
  }

  /** The current detector's `fileFormat` table is found through `_fileFormat`. */
  lemma FileFormatFound()
    ensures GetDict(CurrentTables, "fileFormat") == Some(FileFormatTable)
  {
    assert "_" + "fileFormat" == "_fileFormat";
    assert CurrentTables["_fileFormat"] == FileFormatTable;
  }

  /** The current file format table maps `FITZ` to FITS and has no `FITS`. */
  lemma FitsMissing()
    ensures FileFormatTable != map[] && "FITZ" in FileFormatTable && FileFormatTable["FITZ"] == FITS
    ensures "FITS" !in FileFormatTable
  {
    assert "FITZ" in FileFormatTable;
    assert "FITS"[3] == 'S' && "FITZ"[3] == 'Z';
  }

  lemma FormatNames()
    ensures Upper("fitz") == "FITZ" && Upper("FITS") == "FITS"
  {
    var fitz := Upper("fitz");
    assert "fitz"[3] == 'z' && UpperChar('z') == 'Z';
    assert fitz[0] == 'F' && fitz[1] == 'I' && fitz[2] == 'T' && fitz[3] == 'Z';
    var fits := Upper("FITS");
    assert fits[0] == 'F' && fits[1] == 'I' && fits[2] == 'T' && fits[3] == 'S';
  }
}
