/** Small value types shared by every module of the model: optional values,
    the dynamically typed values stored in configuration dictionaries, and
    the few Python string operations the test suite relies on
    (`str.upper`, `str.lower`, `str(int)`, `int(str)`, `str.zfill`,
    `os.path.join`). */
module Common {

  datatype Option<+T> = None | Some(value: T)

  /** The value of a computation, or the exception it raised. */
  datatype Result<+T, +E> = Ok(value: T) | Err(error: E)

  /** The constants of the Lima Core library that the lookup tables map
      configuration strings to (trigger modes, file formats, acquisition
      mode, saving modes and overwrite policy). Their numeric values belong
      to the library and are not modelled. */
  datatype CoreConst =
    | IntTrig | IntTrigMult | ExtTrigSingle | ExtTrigMult | ExtGate
    | CBFFormat | CBFMiniHeader | EDF | EDFConcat | EDFGZ | EDFLZ4
    | HDF5 | NXS | RAW | TIFFFormat | FITS
    | Single
    | AutoFrame | Manual
    | Overwrite

  /** A Python value held in a configuration dictionary or written to a
      parameter structure. Floats are kept as their validated decimal text,
      since no floating-point arithmetic of theirs is modelled. */
  datatype Value =
    | Str(s: string)
    | Int(i: int)
    | Float(text: string)
    | Null
    | Const(c: CoreConst)

  type Dict = map<string, Value>

  // ---------------------------------------------------------------------
  // Case conversion (ASCII letters only)

  function UpperChar(c: char): char {
    if 'a' <= c <= 'z' then (c as int - 32) as char else c
  }

  function LowerChar(c: char): char {
    if 'A' <= c <= 'Z' then (c as int + 32) as char else c
  }

  /** `s.upper()` */
  function Upper(s: string): (r: string)
    ensures |r| == |s|
    ensures forall i :: 0 <= i < |s| ==> r[i] == UpperChar(s[i])
  {
    if s == [] then [] else [UpperChar(s[0])] + Upper(s[1..])
  }

  /** `s.lower()` */
  function Lower(s: string): (r: string)
    ensures |r| == |s|
    ensures forall i :: 0 <= i < |s| ==> r[i] == LowerChar(s[i])
  {
    if s == [] then [] else [LowerChar(s[0])] + Lower(s[1..])
  }

  lemma UpperIdempotent(s: string)
    ensures Upper(Upper(s)) == Upper(s)
  {
    assert forall i :: 0 <= i < |s| ==> UpperChar(UpperChar(s[i])) == UpperChar(s[i]);
  }

  lemma LowerIdempotent(s: string)
    ensures Lower(Lower(s)) == Lower(s)
  {
    assert forall i :: 0 <= i < |s| ==> LowerChar(LowerChar(s[i])) == LowerChar(s[i]);
  }

  // ---------------------------------------------------------------------
  // Decimal integers: `str(n)` and `int(s)`

  predicate IsDigit(c: char) {
    '0' <= c <= '9'
  }

  predicate AllDigits(s: string) {
    forall i :: 0 <= i < |s| ==> IsDigit(s[i])
  }

  function DigitChar(d: nat): (c: char)
    requires d < 10
    ensures IsDigit(c)
  {
    ('0' as int + d) as char
  }

  function DigitValue(c: char): (d: nat)
    requires IsDigit(c)
    ensures d < 10
  {
    c as int - '0' as int
  }

  /** The decimal digits of `n`, most significant first, no leading zero. */
  function NatToString(n: nat): (s: string)
    ensures |s| >= 1 && AllDigits(s)
    ensures n < 10 <==> |s| == 1
    decreases n
  {
    if n < 10 then [DigitChar(n)] else NatToString(n / 10) + [DigitChar(n % 10)]
  }

  /** The number a non-empty run of decimal digits denotes. */
  function DigitsValue(s: string): nat
    requires AllDigits(s)
    decreases |s|
  {
    if s == [] then 0
    else DigitsValue(s[..|s| - 1]) * 10 + DigitValue(s[|s| - 1])
  }

  lemma {:induction false} DigitsValueOfNatToString(n: nat)
    ensures DigitsValue(NatToString(n)) == n
    decreases n
  {
    if n >= 10 {
      var s := NatToString(n);
      assert s[..|s| - 1] == NatToString(n / 10);
      DigitsValueOfNatToString(n / 10);
    }
  }

  /** Python's `str(i)` for an integer. */
  function IntToString(i: int): (s: string)
    ensures |s| >= 1
    ensures i >= 0 ==> AllDigits(s)
    ensures i < 0 ==> s[0] == '-' && AllDigits(s[1..])
  {
    if i < 0 then "-" + NatToString(-i) else NatToString(i)
  }

  /** Python's `int(s)` on a string, without surrounding whitespace:
      an optional sign followed by at least one digit. */
  function ParseInt(s: string): (r: Option<int>)
    ensures r.Some? <==>
              (|s| >= 1 && AllDigits(s)) || (|s| >= 2 && (s[0] == '-' || s[0] == '+') && AllDigits(s[1..]))
    ensures r.Some? ==> (s[0] == '-' <==> r.value < 0) || (s[0] == '-' && r.value == 0)
  {
    if |s| >= 2 && (s[0] == '-' || s[0] == '+') && AllDigits(s[1..]) then
      var v: int := DigitsValue(s[1..]);
      Some(if s[0] == '-' then -v else v)
    else if |s| >= 1 && AllDigits(s) then Some(DigitsValue(s))
    else None
  }

  /** `int(str(i)) == i` */
  lemma IntRoundTrip(i: int)
    ensures ParseInt(IntToString(i)) == Some(i)
  {
    var s := IntToString(i);
    if i < 0 {
      var d := NatToString(-i);
      assert s == "-" + d;
      assert s[1..] == d;
      DigitsValueOfNatToString(-i);
      assert ParseInt(s) == Some(-(DigitsValue(d) as int));
    } else {
      assert s == NatToString(i);
      assert IsDigit(s[0]);
      DigitsValueOfNatToString(i);
      assert ParseInt(s) == Some(DigitsValue(s));
    }
  }

  /** Python's `float(s)` accepts exactly these texts in this model: an
      optional sign, then either a mantissa of digits with at most one
      point and at least one digit and an optional exponent, or one of
      `inf`, `infinity` and `nan` in any case. */
  predicate IsFloatText(s: string) {
    var body := if |s| >= 1 && (s[0] == '-' || s[0] == '+') then s[1..] else s;
    IsSpecialFloat(body) ||
    exists e {:trigger body[e..]} :: 0 <= e <= |body| && IsMantissa(body[..e]) && IsExponent(body[e..])
  }

  /** The infinities and the not-a-number value, spelt in any case. */
  predicate IsSpecialFloat(body: string) {
    Lower(body) in {"inf", "infinity", "nan"}
  }

  /** `float` accepts the special values with a sign and in any case. */
  lemma SpecialFloats()
    ensures IsFloatText("-Inf") && IsFloatText("+nAn")
  {
    var inf, nan := "-Inf"[1..], "+nAn"[1..];
    assert inf == "Inf" && nan == "nAn";
    var li, ln := Lower(inf), Lower(nan);
    assert li[0] == 'i' && li[1] == 'n' && li[2] == 'f';
    assert ln[0] == 'n' && ln[1] == 'a' && ln[2] == 'n';
    assert li == "inf" && ln == "nan";
  }

  /** ... but neither a cut-off special value nor a doubled sign. */
  lemma NotSpecialFloats()
    ensures !IsFloatText("infinit") && !IsFloatText("--inf")
  {
    assert |Lower("infinit")| == 7;
    forall e | 0 <= e <= 7 ensures !IsMantissa("infinit"[..e]) {
      if e > 0 { assert "infinit"[..e][0] == 'i'; }
    }
    var b := "--inf"[1..];
    assert b == "-inf";
    assert Lower(b)[0] == '-';
    forall e | 0 <= e <= 4 ensures !IsMantissa(b[..e]) {
      if e > 0 { assert b[..e][0] == '-'; }
    }
  }

  predicate IsMantissa(m: string) {
    (AllDigits(m) && |m| >= 1)
    || exists p {:trigger m[..p]} :: 0 <= p < |m| && m[p] == '.' && AllDigits(m[..p]) && AllDigits(m[p + 1..]) && |m| >= 2
  }

  predicate IsExponent(x: string) {
    x == []
    || (|x| >= 2 && (x[0] == 'e' || x[0] == 'E') &&
        (AllDigits(x[1..]) || (|x| >= 3 && (x[1] == '-' || x[1] == '+') && AllDigits(x[2..]))))
  }

  // ---------------------------------------------------------------------
  // `str.zfill` and `os.path.join`

  function Zeros(n: nat): (z: string)
    ensures |z| == n && forall i :: 0 <= i < n ==> z[i] == '0'
  {
    if n == 0 then "" else "0" + Zeros(n - 1)
  }

  /** `s.zfill(width)`: pads with zeros on the left, after a leading sign. */
  function ZFill(s: string, width: nat): (r: string)
    ensures |r| == if |s| >= width then |s| else width
  {
    if |s| >= width then s
    else if |s| >= 1 && (s[0] == '-' || s[0] == '+') then [s[0]] + Zeros(width - |s|) + s[1..]
    else Zeros(width - |s|) + s
  }

  /** `os.path.join(a, b)` on POSIX paths. */
  function JoinPath(a: string, b: string): (r: string)
    ensures |b| >= 1 && b[0] == '/' ==> r == b
    ensures |r| >= |b|
    ensures (|b| == 0 || b[0] != '/') ==> r[|r| - |b|..] == b
  {
    if |b| >= 1 && b[0] == '/' then b
    else if a == "" || a[|a| - 1] == '/' then a + b
    else a + "/" + b
  }
}
