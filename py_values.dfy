/**
 * The values the Python services read out of JSON documents and request
 * parameters, with the parts of Python's semantics they rely on: truth
 * values, `==`, `str()`, `int()` and `str.strip()`.
 */
module PyValues {
  import opened Common
  import opened Text

  /** A JSON-decoded value. Floats and lists inside a document do not occur in the modelled code. */
  datatype PyValue = PNone | PBool(b: bool) | PInt(i: int) | PStr(s: string) | PDict(d: map<string, PyValue>)

  type PyDict = map<string, PyValue>

  /** Python's truth value: None, False, 0, "" and {} are false. */
  predicate Truthy(v: PyValue)
  {
    match v
    case PNone => false
    case PBool(b) => b
    case PInt(i) => i != 0
    case PStr(s) => s != []
    case PDict(d) => d != map[]
  }

  /** dict.get(key, default). */
  function Get(d: PyDict, key: string, default: PyValue): PyValue
  {
    if key in d then d[key] else default
  }

  /** The number a bool or an int stands for in arithmetic and comparisons. */
  function AsNumber(v: PyValue): Option<int>
  {
    match v
    case PBool(b) => Some(if b then 1 else 0)
    case PInt(i) => Some(i)
    case _ => None
  }

  /** Python `==`: True and False equal 1 and 0; other values are equal when they are the same value. */
  predicate PyEq(a: PyValue, b: PyValue)
  {
    if AsNumber(a).Some? && AsNumber(b).Some? then AsNumber(a) == AsNumber(b) else a == b
  }

  /** `==` is an equivalence. */
  lemma PyEqEquivalence(a: PyValue, b: PyValue, c: PyValue)
    ensures PyEq(a, a)
    ensures PyEq(a, b) ==> PyEq(b, a)
    ensures PyEq(a, b) && PyEq(b, c) ==> PyEq(a, c)
  {
  }

  /** No bool equals 465 or 587; exactly 1 and True equal 1. */
  lemma PyEqNumbers(v: PyValue)
    ensures PyEq(v, PInt(465)) <==> v == PInt(465)
    ensures PyEq(v, PInt(587)) <==> v == PInt(587)
    ensures PyEq(v, PInt(1)) <==> v == PInt(1) || v == PBool(true)
    ensures PyEq(v, PBool(true)) <==> v == PInt(1) || v == PBool(true)
  {
  }

  /** `str(v)`; None for a dictionary, whose printed form depends on key order, which the model does not keep. */
  function PyStr(v: PyValue): (r: Option<string>)
    ensures v.PStr? ==> r == Some(v.s)
    ensures r.None? <==> v.PDict?
  {
    match v
    case PNone => Some("None")
    case PBool(b) => Some(if b then "True" else "False")
    case PInt(i) => Some(IntToDecimal(i))
    case PStr(s) => Some(s)
    case PDict(_) => None
  }

  /** str.isspace for one character: Java's whitespace plus NEL and the no-break spaces. */
  predicate PyIsSpace(c: char)
  {
    JavaIsWhitespace(c) || c == '\U{0085}' || c == '\U{00A0}' || c == '\U{2007}' || c == '\U{202F}'
  }

  function StripStart(s: string): (r: string)
    ensures r == [] || !PyIsSpace(r[0])
  {
    if s != [] && PyIsSpace(s[0]) then StripStart(s[1..]) else s
  }

  function StripEnd(s: string): (r: string)
    ensures r == [] || !PyIsSpace(r[|r| - 1])
    ensures s == [] || !PyIsSpace(s[0]) ==> r == [] || !PyIsSpace(r[0])
  {
    if s != [] && PyIsSpace(s[|s| - 1]) then StripEnd(s[..|s| - 1]) else s
  }

  /** str.strip(): leading and trailing whitespace removed. */
  function PyStrip(s: string): (r: string)
    ensures r == [] || (!PyIsSpace(r[0]) && !PyIsSpace(r[|r| - 1]))
  {
    StripEnd(StripStart(s))
  }

  /** A string that neither starts nor ends with whitespace is its own strip. */
  lemma StripUnpadded(s: string)
    requires s != [] && !PyIsSpace(s[0]) && !PyIsSpace(s[|s| - 1])
    ensures PyStrip(s) == s
  {
  }

  lemma {:induction false} StripStartKeeps(s: string, k: nat)
    requires k < |s| && !PyIsSpace(s[k])
    ensures s[k] in StripStart(s)
  {
    if PyIsSpace(s[0]) {
      assert k > 0 && s[1..][k - 1] == s[k];
      StripStartKeeps(s[1..], k - 1);
    }
  }

  lemma {:induction false} StripEndKeeps(s: string, k: nat)
    requires k < |s| && !PyIsSpace(s[k])
    ensures s[k] in StripEnd(s)
  {
    if PyIsSpace(s[|s| - 1]) {
      assert k < |s| - 1 && s[..|s| - 1][k] == s[k];
      StripEndKeeps(s[..|s| - 1], k);
    }
  }

  /** Stripping removes whitespace only: every other character survives. */
  lemma StripKeeps(s: string, k: nat)
    requires k < |s| && !PyIsSpace(s[k])
    ensures s[k] in PyStrip(s)
  {
    StripStartKeeps(s, k);
    var t := StripStart(s);
    var j :| 0 <= j < |t| && t[j] == s[k];
    StripEndKeeps(t, j);
  }

  predicate IsDigit(c: char)
  {
    '0' <= c <= '9'
  }

  /** What int() accepts after the sign: digits, with single underscores between them. */
  predicate DigitGroups(s: string)
  {
    |s| >= 1 && IsDigit(s[0]) && IsDigit(s[|s| - 1]) && forall k :: 0 <= k < |s| ==> GroupChar(s, k)
  }

  /** A digit, or an underscore followed by a digit. */
  predicate GroupChar(s: string, k: nat)
    requires k < |s|
  {
    IsDigit(s[k]) || (s[k] == '_' && k + 1 < |s| && IsDigit(s[k + 1]))
  }

  /** The value of a digit string, underscores skipped. */
  function DigitsValue(s: string): nat
  {
    if s == [] then 0
    else if IsDigit(s[|s| - 1]) then DigitsValue(s[..|s| - 1]) * 10 + (s[|s| - 1] as int - '0' as int)
    else DigitsValue(s[..|s| - 1])
  }

  /** int(s) for a string: None where Python raises ValueError. */
  function ParseInt(s: string): Option<int>
  {
    var t := PyStrip(s);
    if t != [] && (t[0] == '+' || t[0] == '-') then
      var v: int := DigitsValue(t[1..]);
      if DigitGroups(t[1..]) then Some(if t[0] == '-' then -v else v) else None
    else if DigitGroups(t) then Some(DigitsValue(t))
    else None
  }

  /** int(v): None where Python raises (None, a dictionary, a string that is not a number). */
  function PyInt(v: PyValue): Option<int>
  {
    match v
    case PBool(b) => Some(if b then 1 else 0)
    case PInt(i) => Some(i)
    case PStr(s) => ParseInt(s)
    case _ => None
  }

  /** The decimal digits printed for n read back as n. */
  lemma {:induction false} DecimalDigitsValue(n: nat)
    ensures DigitGroups(NatToDecimal(n))
    ensures DigitsValue(NatToDecimal(n)) == n
    decreases n
  {
    var d := NatToDecimal(n);
    if n >= 10 {
      DecimalDigitsValue(n / 10);
      assert d[..|d| - 1] == NatToDecimal(n / 10);
    }
  }

  /** int() reads back what str() prints for an integer. */
  lemma ParseIntDecimal(i: int)
    ensures ParseInt(IntToDecimal(i)) == Some(i)
  {
    if i < 0 {
      ParseIntNegative(i);
    } else {
      ParseIntNonNegative(i);
    }
  }

  lemma ParseIntNonNegative(i: int)
    requires i >= 0
    ensures ParseInt(IntToDecimal(i)) == Some(i)
  {
    var s := IntToDecimal(i);
    var n: nat := i;
    assert s == NatToDecimal(n);
    StripUnpadded(s);
    DecimalDigitsValue(n);
  }

  lemma ParseIntNegative(i: int)
    requires i < 0
    ensures ParseInt(IntToDecimal(i)) == Some(i)
  {
    var n: nat := -i;
    var d := NatToDecimal(n);
    var s := IntToDecimal(i);
    assert s == "-" + d;
    assert s[|s| - 1] == d[|d| - 1];
    StripUnpadded(s);
    DecimalDigitsValue(n);
    assert s[1..] == d;
    ParseIntSigned(s);
  }

  /** int() of a '-' followed by digit groups, with no surrounding whitespace. */
  lemma ParseIntSigned(s: string)
    requires |s| >= 2 && s[0] == '-' && DigitGroups(s[1..]) && PyStrip(s) == s
    ensures ParseInt(s) == Some(-(DigitsValue(s[1..]) as int))
  {
  }

  /** int() rejects any string holding something other than whitespace, a sign, digits and underscores. */
  lemma ParseIntRejects(s: string, k: nat)
    requires k < |s| && !PyIsSpace(s[k]) && !IsDigit(s[k]) && s[k] != '+' && s[k] != '-' && s[k] != '_'
    ensures ParseInt(s) == None
  {
    var t := PyStrip(s);
    StripKeeps(s, k);
    var j :| 0 <= j < |t| && t[j] == s[k];
    assert !IsDigit(t[j]) && t[j] != '_';
    if t[0] == '+' || t[0] == '-' {
      assert j > 0;
      var u := t[1..];
      assert u[j - 1] == t[j];
      assert !GroupChar(u, j - 1);
    } else {
      assert !GroupChar(t, j);
    }
  }

  /** int() of the empty string raises. */
  lemma ParseIntEmpty()
    ensures ParseInt("") == None
  {
  }

  /** int(str(v)) == v for integers. */
  lemma PyIntOfStr(i: int)
    ensures PyInt(PStr(PyStr(PInt(i)).value)) == Some(i)
  {
    ParseIntDecimal(i);
  }
}
