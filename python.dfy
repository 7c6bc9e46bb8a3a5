/** The parts of Python's runtime that the drivers and the dispatcher lean on:
    JSON-decoded values, truthiness and `==` on them, `str()`, `format()` with a
    numeric format spec, decimal rendering of integers, and the exceptions these raise. */
module Python {

  datatype Option<+T> = None | Some(value: T)

  /** The exceptions the modelled code raises or lets through. */
  datatype PyError =
    | KeyError(key: Value)
    | TypeError(reason: string)
    | ValueError(reason: string)
    | IndexError(reason: string)
    | ZeroDivisionError
    | UnicodeEncodeError
    | RuntimeError(message: string)
    | VisaIOError(message: string)   // raised by the transport; str(e) is `message`

  /** A value or the exception that interrupted its computation. */
  datatype Result<+T> = Ok(value: T) | Err(error: PyError) {
    predicate IsFailure() { Err? }
    function PropagateFailure<U>(): Result<U> requires Err? { Err(error) }
    function Extract(): T requires Ok? { value }
  }

  /** What `json.loads` produces. */
  datatype Value =
    | VNull
    | VBool(b: bool)
    | VInt(i: int)
    | VFloat(r: real)
    | VStr(s: string)
    | VList(items: seq<Value>)
    | VDict(entries: map<string, Value>)

  type Kwargs = map<string, Value>

  /** `kwargs.get(key, default)` */
  function Get(kw: Kwargs, key: string, default: Value): (v: Value)
    ensures key !in kw ==> v == default
  {
    if key in kw then kw[key] else default
  }

  /** `kwargs[key]` */
  function Item(kw: Kwargs, key: string): (r: Result<Value>)
    ensures r.Ok? <==> key in kw
    ensures r.Ok? ==> r.value == kw[key]
    ensures r.Err? ==> r.error == KeyError(VStr(key))
  {
    if key in kw then Ok(kw[key]) else Err(KeyError(VStr(key)))
  }

  /** Python truthiness (`if v:`). */
  predicate Truthy(v: Value) {
    match v
    case VNull => false
    case VBool(b) => b
    case VInt(i) => i != 0
    case VFloat(r) => r != 0.0
    case VStr(s) => s != ""
    case VList(items) => items != []
    case VDict(entries) => entries != map[]
  }

  /** The number a value stands for when Python uses it as one: bool is a subclass of int. */
  function AsNumber(v: Value): (x: Option<real>)
    ensures x.Some? <==> (v.VBool? || v.VInt? || v.VFloat?)
  {
    match v
    case VBool(b) => Some(if b then 1.0 else 0.0)
    case VInt(i) => Some(i as real)
    case VFloat(r) => Some(r)
    case _ => None
  }

  /** `v == n` for an integer literal `n`: True == 1, 1.0 == 1, "1" != 1. */
  predicate EqualsInt(v: Value, n: int) {
    AsNumber(v) == Some(n as real)
  }

  /** Lists and dicts cannot be dictionary keys. */
  predicate Hashable(v: Value) {
    !(v.VList? || v.VDict?)
  }

  /** The float formatters the source applies (`#.12g`, `.15E`, ...) and `str()` of values
      whose text this model does not compute.  They are left uninterpreted. */
  datatype Formats = Formats(
    g7: real -> string,     // '#.7g'
    g12: real -> string,    // '#.12g'
    g14: real -> string,    // '#.14g'
    g15: real -> string,    // '#.15g'
    g23: real -> string,    // '#.23g'
    e9: real -> string,     // '.9E'
    e15: real -> string,    // '.15E'
    f3: real -> string,     // '#.3f'
    f4: real -> string,     // '#.4f'
    floatStr: real -> string,       // str(float)
    containerStr: Value -> string   // str(list), str(dict)
  )

  /** `format(v, spec)` for a numeric spec: numbers (bools included) are formatted,
      a string raises ValueError and anything else TypeError. */
  function FormatNumber(spec: real -> string, v: Value): (r: Result<string>)
    ensures r.Ok? <==> AsNumber(v).Some?
    ensures r.Ok? ==> r.value == spec(AsNumber(v).value)
    ensures v.VStr? ==> r.Err? && r.error.ValueError?
  {
    match AsNumber(v)
    case Some(x) => Ok(spec(x))
    case None =>
      if v.VStr? then Err(ValueError("Unknown format code for object of type 'str'"))
      else Err(TypeError("unsupported format string"))
  }

  /** `str(v)`, as an f-string `{v}` renders it. */
  function Str(f: Formats, v: Value): string {
    match v
    case VNull => "None"
    case VBool(b) => if b then "True" else "False"
    case VInt(i) => IntToString(i)
    case VFloat(r) => f.floatStr(r)
    case VStr(s) => s
    case _ => f.containerStr(v)
  }

  // ---------------------------------------------------------------------------
  // Decimal rendering of integers (`str(int)`, `{n:.0f}` for ints, `len(str(n))`)
  // ---------------------------------------------------------------------------

  predicate IsDigit(c: char) { '0' <= c <= '9' }

  predicate AllDigits(s: string) { forall i :: 0 <= i < |s| ==> IsDigit(s[i]) }

  function DigitChar(d: nat): (c: char)
    requires d < 10
    ensures IsDigit(c)
  {
    ('0' as int + d) as char
  }

  function DigitValue(c: char): (d: nat)
    requires IsDigit(c)
    ensures d < 10
  {
    c as int - '0' as int
  }

  /** `str(n)` for a non-negative integer: most significant digit first, no leading zeros. */
  function NatToString(n: nat): (s: string)
    ensures |s| >= 1 && AllDigits(s)
    ensures n >= 10 ==> s[0] != '0'
    decreases n
  {
    if n < 10 then [DigitChar(n)] else NatToString(n / 10) + [DigitChar(n % 10)]
  }

  /** `str(i)` for any integer. */
  function IntToString(i: int): (s: string)
    ensures |s| >= 1
  {
    if i < 0 then "-" + NatToString(-i) else NatToString(i)
  }

  /** `int(s)` for a string of decimal digits: the reading of NatToString backwards. */
  function ParseNat(s: string): nat
    requires AllDigits(s)
  {
    if s == [] then 0 else ParseNat(s[..|s| - 1]) * 10 + DigitValue(s[|s| - 1])
  }

  function Pow10(k: nat): (p: nat)
    ensures p >= 1
  {
    if k == 0 then 1 else 10 * Pow10(k - 1)
  }

  /** Reading a rendered number back gives the number. */
  lemma {:induction false} ParseNatToString(n: nat)
    ensures ParseNat(NatToString(n)) == n
  {
    var s := NatToString(n);
    if n >= 10 {
      ParseNatToString(n / 10);
      assert s[..|s| - 1] == NatToString(n / 10);
    }
  }

  /** `len(str(n)) <= k` exactly when `n < 10**k` (for k >= 1). */
  lemma {:induction false} NatToStringLength(n: nat, k: nat)
    requires k >= 1
    ensures |NatToString(n)| <= k <==> n < Pow10(k)
    decreases n
  {
    if n >= 10 {
      if k == 1 {
        assert |NatToString(n / 10)| >= 1;
      } else {
        NatToStringLength(n / 10, k - 1);
      }
    }
  }

  // ---------------------------------------------------------------------------
  // str methods
  // ---------------------------------------------------------------------------

  function UpperChar(c: char): char {
    if 'a' <= c <= 'z' then (c as int - 32) as char else c
  }

  /** `s.upper()`, for ASCII letters. */
  function Upper(s: string): (u: string)
    ensures |u| == |s|
    ensures forall i :: 0 <= i < |s| ==> u[i] == UpperChar(s[i])
  {
    seq(|s|, i requires 0 <= i < |s| => UpperChar(s[i]))
  }

  /** No lower-case ASCII letter in `s`. */
  predicate IsUpper(s: string) {
    forall i :: 0 <= i < |s| ==> !('a' <= s[i] <= 'z')
  }

  /** The characters `str.isspace()` holds of: the ASCII separators and controls
      and the Unicode spaces. */
  predicate IsSpace(c: char) {
    c == ' ' || c == '\t' || c == '\n' || c == '\r' || c == '\U{B}' || c == '\U{C}'
    || '\U{1C}' <= c <= '\U{1F}' || c == '\U{85}' || c == '\U{A0}' || c == '\U{1680}'
    || '\U{2000}' <= c <= '\U{200A}' || c == '\U{2028}' || c == '\U{2029}'
    || c == '\U{202F}' || c == '\U{205F}' || c == '\U{3000}'
  }

  /** `s.lstrip()` */
  function StripLeft(s: string): (t: string)
    ensures |t| <= |s| && (t == [] || !IsSpace(t[0]))
  {
    if s != [] && IsSpace(s[0]) then StripLeft(s[1..]) else s
  }

  /** `s.rstrip()` */
  function StripRight(s: string): (t: string)
    ensures |t| <= |s| && (t == [] || !IsSpace(t[|t| - 1]))
    ensures s != [] && !IsSpace(s[0]) ==> t != [] && t[0] == s[0]
  {
    if s != [] && IsSpace(s[|s| - 1]) then StripRight(s[..|s| - 1]) else s
  }

  /** `s.strip()` */
  function Strip(s: string): (t: string)
    ensures |t| <= |s|
    ensures t == [] || (!IsSpace(t[0]) && !IsSpace(t[|t| - 1]))
  {
    StripRight(StripLeft(s))
  }

  /** `lstrip()` leaves the suffix of `s` after its leading white space. */
  lemma {:induction false} StripLeftSuffix(s: string)
    ensures var t := StripLeft(s);
            t == s[|s| - |t|..] && forall k :: 0 <= k < |s| - |t| ==> IsSpace(s[k])
    decreases |s|
  {
    if s != [] && IsSpace(s[0]) {
      StripLeftSuffix(s[1..]);
    }
  }

  /** `rstrip()` leaves the prefix of `s` before its trailing white space. */
  lemma {:induction false} StripRightPrefix(s: string)
    ensures var t := StripRight(s);
            t == s[..|t|] && forall k :: |t| <= k < |s| ==> IsSpace(s[k])
    decreases |s|
  {
    if s != [] && IsSpace(s[|s| - 1]) {
      StripRightPrefix(s[..|s| - 1]);
    }
  }

  /** `strip()` leaves the slice of `s` between its leading and its trailing white
      space. */
  lemma StripSlice(s: string)
    ensures exists i, j :: 0 <= i <= j <= |s| && Strip(s) == s[i..j]
                           && (forall k :: 0 <= k < i ==> IsSpace(s[k]))
                           && (forall k :: j <= k < |s| ==> IsSpace(s[k]))
  {
    var l := StripLeft(s);
    var t := StripRight(l);
    StripLeftSuffix(s);
    StripRightPrefix(l);
    var i := |s| - |l|;
    assert t == s[i..i + |t|];
    assert forall k :: i + |t| <= k < |s| ==> s[k] == l[k - i];
  }

  predicate StartsWith(s: string, prefix: string) {
    |prefix| <= |s| && s[..|prefix|] == prefix
  }

  predicate EndsWith(s: string, suffix: string) {
    |suffix| <= |s| && s[|s| - |suffix|..] == suffix
  }

  /** `sub in s` */
  predicate Contains(s: string, sub: string) {
    exists i :: 0 <= i <= |s| - |sub| && StartsWith(s[i..], sub)
  }

  predicate IsAscii(s: string) {
    forall i :: 0 <= i < |s| ==> s[i] < 128 as char
  }
}
