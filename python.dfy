/**
 * The Python run-time values and exceptions that the query builder and its
 * validators can observe: the shapes of the arguments handed to the property
 * setters, the exceptions they raise, and the `str()` text of scalar values
 * interpolated into SQL.
 */
module Python {

  /** Text that Python's str() produces for a float: digits, sign, point,
      exponent, `inf` and `nan`. Never a quote. */
  predicate IsFloatText(t: string) {
    |t| > 0 && forall i :: 0 <= i < |t| ==> t[i] in "0123456789.+-einfa"
  }

  type FloatText = t: string | IsFloatText(t) witness "0.0"

  /** A Python object as the setters see it. Sets and tuples keep their
      items in iteration order, a dict its keys in insertion order, and a
      data frame its column labels (the setters only ever iterate over a
      frame). Any other object is hashable and not iterable. */
  datatype PyValue =
    | PyNone
    | PyBool(b: bool)
    | PyInt(i: int)
    | PyFloat(text: FloatText)
    | PyStr(s: string)
    | PyList(items: seq<PyValue>)
    | PyTuple(items: seq<PyValue>)
    | PySet(items: seq<PyValue>)
    | PyDict(keys: seq<PyValue>)
    | PyDataFrame(columns: seq<string>)
    | PyObject(typeName: string)

  /** The exception classes raised by the core, plus the built-in ones
      (TypeError, IndexError, AttributeError) its code can trigger. */
  datatype Error =
    | WrongAggregationException
    | WrongSortException
    | WrongFilterException
    | WrongFieldName
    | NotAListException
    | EmptyListException
    | GBQWrongPathPatternException
    | GBQTableNotExistException
    | GBQTableNotExist
    | WrongServiceAccountPathException
    | WrongNumberOfDataSourcesException
    | CSVWrongPathException
    | CSVWrongSuffixException
    | NotPandasDFException
    | TypeError
    | IndexError
    | AttributeError

  datatype Option<+T> = None | Some(value: T)

  /** A value or the exception raised instead of returning it. */
  datatype Result<+T> = Ok(value: T) | Err(error: Error)

  /** An optional text field (an aggregation name, a sort direction): None, or the string stored. */
  function TextOf(v: PyValue): (r: Option<string>)
    ensures r.Some? <==> v.PyStr?
    ensures v.PyStr? ==> r.value == v.s
  {
    if v.PyStr? then Some(v.s) else None
  }

  /** isinstance(v, (int, float, str)); bool is a subclass of int. */
  predicate IsScalar(v: PyValue) {
    v.PyBool? || v.PyInt? || v.PyFloat? || v.PyStr?
  }

  /** hash(v) succeeds: lists, sets, dicts and data frames are unhashable,
      a tuple is hashable when its items are. */
  predicate Hashable(v: PyValue)
    decreases v
  {
    match v
    case PyList(_) => false
    case PySet(_) => false
    case PyDict(_) => false
    case PyDataFrame(_) => false
    case PyTuple(items) => forall i | 0 <= i < |items| :: Hashable(items[i])
    case _ => true
  }

  /** What a `for` loop over v visits, or None when iter(v) raises TypeError.
      A string iterates over its one-character strings, a dict over its keys
      and a data frame over its column labels. */
  function Iterate(v: PyValue): (r: Option<seq<PyValue>>)
    ensures r.Some? <==> (v.PyList? || v.PyTuple? || v.PySet? || v.PyStr? || v.PyDict? || v.PyDataFrame?)
    ensures v.PyStr? ==> r.Some? && |r.value| == |v.s|
                         && forall i | 0 <= i < |v.s| :: r.value[i] == PyStr([v.s[i]])
    ensures (v.PyList? || v.PyTuple? || v.PySet?) ==> r == Some(v.items)
    ensures v.PyDict? ==> r == Some(v.keys)
    ensures v.PyDataFrame? ==> r.Some? && |r.value| == |v.columns|
                               && forall i | 0 <= i < |v.columns| :: r.value[i] == PyStr(v.columns[i])
  {
    match v
    case PyList(items) => Some(items)
    case PyTuple(items) => Some(items)
    case PySet(items) => Some(items)
    case PyDict(keys) => Some(keys)
    case PyDataFrame(columns) => Some(Strs(columns))
    case PyStr(s) => Some(seq(|s|, i requires 0 <= i < |s| => PyStr([s[i]])))
    case _ => None
  }

  function DigitChar(d: nat): char
    requires d < 10
  {
    ('0' as int + d) as char
  }

  predicate IsDigit(c: char) {
    '0' <= c <= '9'
  }

  /** str(n) for a non-negative integer. */
  function NatToDecimal(n: nat): string
    decreases n
  {
    if n < 10 then [DigitChar(n)] else NatToDecimal(n / 10) + [DigitChar(n % 10)]
  }

  /** str(i) for any integer. */
  function IntToDecimal(i: int): string {
    if i < 0 then "-" + NatToDecimal(-i) else NatToDecimal(i)
  }

  /** int(s) for a string of decimal digits. */
  function DecimalValue(s: string): nat
    requires forall k | 0 <= k < |s| :: IsDigit(s[k])
    decreases |s|
  {
    if s == [] then 0
    else
      assert IsDigit(s[|s| - 1]);
      DecimalValue(s[..|s| - 1]) * 10 + ((s[|s| - 1] as int) - ('0' as int))
  }

  /** The decimal text of n is a non-empty digit string that reads back as n. */
  lemma {:induction false} DecimalRoundTrip(n: nat)
    ensures |NatToDecimal(n)| > 0
    ensures forall k | 0 <= k < |NatToDecimal(n)| :: IsDigit(NatToDecimal(n)[k])
    ensures DecimalValue(NatToDecimal(n)) == n
    decreases n
  {
    if n >= 10 {
      DecimalRoundTrip(n / 10);
      var t := NatToDecimal(n / 10);
      var s := NatToDecimal(n);
      var c := DigitChar(n % 10);
      assert s == t + [c];
      assert s[..|s| - 1] == t && s[|s| - 1] == c;
      assert (c as int) - ('0' as int) == n % 10;
    }
  }

  /** str(v) for the scalars that may be interpolated into a filter. */
  function Str(v: PyValue): string
    requires IsScalar(v)
  {
    match v
    case PyBool(b) => if b then "True" else "False"
    case PyInt(i) => IntToDecimal(i)
    case PyFloat(t) => t
    case PyStr(s) => s
  }

  /** Only a string's str() text can contain a quote: numbers and booleans
      print without one and never print as the empty string. */
  lemma NonStringTextHasNoQuote(v: PyValue)
    requires IsScalar(v) && !v.PyStr?
    ensures |Str(v)| > 0 && '\'' !in Str(v)
  {
    match v
    case PyBool(b) =>
    case PyFloat(t) =>
      assert forall k | 0 <= k < |t| :: t[k] != '\'';
    case PyInt(i) =>
      var n: nat := if i < 0 then -i else i;
      DecimalRoundTrip(n);
      var d := NatToDecimal(n);
      assert forall k | 0 <= k < |d| :: d[k] != '\'';
      if i < 0 {
        assert Str(v) == "-" + d;
        assert forall k | 0 <= k < |Str(v)| :: Str(v)[k] != '\'' by {
          forall k | 0 <= k < |Str(v)| ensures Str(v)[k] != '\'' {
            if k > 0 { assert Str(v)[k] == d[k - 1]; }
          }
        }
      }
  }

  /** `v in xs` on a Python list: some element equals v. */
  predicate ListContains(xs: seq<PyValue>, v: PyValue) {
    exists i | 0 <= i < |xs| :: xs[i] == v
  }

  /** A list of names as Python string values. */
  function Strs(names: seq<string>): (r: seq<PyValue>)
    ensures |r| == |names| && forall i | 0 <= i < |names| :: r[i] == PyStr(names[i])
  {
    seq(|names|, i requires 0 <= i < |names| => PyStr(names[i]))
  }

  /** A list of names holds exactly the strings equal to one of them:
      no other kind of value is ever found in it. */
  lemma NameListContains(names: seq<string>, v: PyValue)
    ensures ListContains(Strs(names), v) <==> v.PyStr? && v.s in names
  {
    if v.PyStr? && v.s in names {
      var i :| 0 <= i < |names| && names[i] == v.s;
      assert Strs(names)[i] == v;
    }
  }
}
