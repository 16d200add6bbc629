/**
 * The Python values that travel in a document's metadata dictionary, the
 * few built-in operations the pipeline applies to them (truth value,
 * `str()`, `int()`, `dict.get`), and the LangChain `Document` record.
 */
module PyValues {
  import opened Strings

  datatype Option<T> = None | Some(value: T)

  /**
   * A metadata value. A float is given by its numeric value together with
   * the text `str()` prints for it; any other object (a list, a dict, ...)
   * is given by the text `str()` prints for it and its truth value.
   */
  datatype Value =
    | PyNone
    | PyBool(b: bool)
    | PyInt(i: int)
    | PyFloat(x: real, text: string)
    | PyStr(s: string)
    | PyObject(text: string, truthy: bool)

  type Metadata = map<string, Value>

  /** A LangChain document: its text and its metadata dictionary. */
  datatype Document = Document(pageContent: string, metadata: Metadata)

  /** Python's truth value: `if v:`. */
  predicate Truthy(v: Value)
  {
    match v
    case PyNone => false
    case PyBool(b) => b
    case PyInt(i) => i != 0
    case PyFloat(x, _) => x != 0.0
    case PyStr(s) => s != ""
    case PyObject(_, t) => t
  }

  /** `str(v)`, which is also what an f-string prints for v. */
  function ToStr(v: Value): string
  {
    match v
    case PyNone => "None"
    case PyBool(b) => if b then "True" else "False"
    case PyInt(i) => IntToDecimal(i)
    case PyFloat(_, text) => text
    case PyStr(s) => s
    case PyObject(text, _) => text
  }

  /** `isinstance(v, (str, int, float, bool, type(None)))`. */
  predicate IsSimple(v: Value)
  {
    !v.PyObject?
  }

  /** Truncation toward zero, as `int()` does to a float. */
  function Truncate(x: real): (r: int)
    ensures 0.0 <= x ==> r as real <= x < r as real + 1.0
    ensures x < 0.0 ==> r as real - 1.0 < x <= r as real
  {
    if x >= 0.0 then x.Floor else -((-x).Floor)
  }

  /** `int(s)` for a string: optional surrounding whitespace, an optional sign, decimal digits. */
  function ParseInt(s: string): Option<int>
  {
    ParseSigned(Strip(s))
  }

  /** An optional sign followed by at least one decimal digit, and nothing else. */
  function ParseSigned(t: string): Option<int>
  {
    var negative := |t| > 0 && t[0] == '-';
    var digits := if |t| > 0 && (t[0] == '-' || t[0] == '+') then t[1..] else t;
    if |digits| > 0 && forall i :: 0 <= i < |digits| ==> IsDigit(digits[i]) then
      var magnitude: int := DecimalValue(digits);
      Some(if negative then -magnitude else magnitude)
    else None
  }

  /** `int(s)` inverts `str(i)`. */
  lemma ParseIntRoundTrip(i: int)
    ensures ParseInt(IntToDecimal(i)) == Some(i)
  {
    var t := IntToDecimal(i);
    var d := NatToDecimal(if i < 0 then -i else i);
    assert t[|t| - 1] == d[|d| - 1];
    assert IsDigit(t[|t| - 1]) && (t[0] == '-' || IsDigit(t[0]));
    StripFixed(t);
    ParseSignedRoundTrip(i);
  }

  lemma ParseSignedRoundTrip(i: int)
    ensures ParseSigned(IntToDecimal(i)) == Some(i)
  {
    if i < 0 {
      var n: nat := -i;
      DecimalRoundTrip(n);
      ParseNegative(NatToDecimal(n));
      assert IntToDecimal(i) == "-" + NatToDecimal(n);
    } else {
      DecimalRoundTrip(i);
      ParseUnsigned(NatToDecimal(i));
    }
  }

  lemma ParseUnsigned(d: string)
    requires |d| > 0 && forall k :: 0 <= k < |d| ==> IsDigit(d[k])
    ensures ParseSigned(d) == Some(DecimalValue(d))
  {
    assert IsDigit(d[0]);
  }

  lemma ParseNegative(d: string)
    requires |d| > 0 && forall k :: 0 <= k < |d| ==> IsDigit(d[k])
    ensures ParseSigned("-" + d) == Some(-(DecimalValue(d) as int))
  {
    assert ("-" + d)[1..] == d;
  }

  /** `int(v)`; None where Python raises (TypeError or ValueError). */
  function ToInt(v: Value): Option<int>
  {
    match v
    case PyNone => None
    case PyBool(b) => Some(if b then 1 else 0)
    case PyInt(i) => Some(i)
    case PyFloat(x, _) => Some(Truncate(x))
    case PyStr(s) => ParseInt(s)
    case PyObject(_, _) => None
  }

  /** `m.get(key, default)`: the default is used only for an absent key. */
  function Get(m: Metadata, key: string, default: Value): Value
  {
    if key in m then m[key] else default
  }
}
