/**
 * The request-field checks the property setters perform before storing a
 * value: the aggregation name, the sort direction, a single field name (x,
 * y) and the dimension and metric lists, against the data source's column
 * catalog.
 */
module Validation {
  import opened Python
  import opened Utils

  /** The columns of the data source: a dict from column name to type (the
      query builder) or a list of column names (the plot classes). */
  datatype Catalog = ColumnTypes(types: map<string, string>) | ColumnList(names: seq<string>)

  function ColumnNames(cols: Catalog): set<string> {
    match cols
    case ColumnTypes(m) => m.Keys
    case ColumnList(ns) => set n | n in ns
  }

  /** `v in cols`. A list compares by equality, so only a string equal to a
      column name is found; a dict hashes v first, so an unhashable value
      raises TypeError. */
  function ColumnIn(v: PyValue, cols: Catalog): (r: Result<bool>)
    ensures r.Err? <==> cols.ColumnTypes? && !Hashable(v)
    ensures r.Err? ==> r.error == TypeError
    ensures r.Ok? ==> (r.value <==> v.PyStr? && v.s in ColumnNames(cols))
  {
    match cols
    case ColumnTypes(m) => if Hashable(v) then Ok(v.PyStr? && v.s in m) else Err(TypeError)
    case ColumnList(ns) =>
      NameListContains(ns, v);
      Ok(ListContains(Strs(ns), v))
  }

  /** The aggregation setters: None, or one of the aggregation names;
      anything else raises WrongAggregationException. */
  function CheckAggregation(v: PyValue): (r: Option<Error>)
    ensures r == None <==> v == PyNone || (v.PyStr? && v.s in AGGR_TYPES)
    ensures r != None ==> r == Some(WrongAggregationException)
  {
    NameListContains(AGGR_TYPES, v);
    if v != PyNone && !ListContains(Strs(AGGR_TYPES), v) then Some(WrongAggregationException) else None
  }

  /** The sort setters: None, `'asc'` or `'desc'`; anything else raises
      WrongSortException. */
  function CheckSort(v: PyValue): (r: Option<Error>)
    ensures r == None <==> v in {PyNone, PyStr("asc"), PyStr("desc")}
    ensures r != None ==> r == Some(WrongSortException)
  {
    NameListContains(SORT_DIRECTIONS, v);
    if v != PyNone && !ListContains(Strs(SORT_DIRECTIONS), v) then Some(WrongSortException) else None
  }

  /** The field setters (x, y, each dimension, each metric): None raises
      WrongFieldName, and so does a value that is not a column; the only
      other outcome is the TypeError a dict catalog raises for an
      unhashable value. */
  function CheckField(v: PyValue, cols: Catalog): (r: Option<Error>)
    ensures r == None <==> v.PyStr? && v.s in ColumnNames(cols)
    ensures v == PyNone ==> r == Some(WrongFieldName)
    ensures r != None ==> r == Some(WrongFieldName) || (r == Some(TypeError) && cols.ColumnTypes? && !Hashable(v))
  {
    if v == PyNone then Some(WrongFieldName)
    else
      match ColumnIn(v, cols)
      case Err(e) => Some(e)
      case Ok(found) => if found then None else Some(WrongFieldName)
  }

  /** The first error of a `for` loop that checks each item as a field. */
  function FieldsError(items: seq<PyValue>, cols: Catalog): Option<Error>
    decreases |items|
  {
    if items == [] then None
    else if CheckField(items[0], cols) != None then CheckField(items[0], cols)
    else FieldsError(items[1..], cols)
  }

  /** The loop stops at the first item that fails, with that item's error,
      and succeeds exactly when every item is a column name. */
  lemma {:induction false} FieldsErrorIsFirstFailure(items: seq<PyValue>, cols: Catalog)
    ensures FieldsError(items, cols) == None <==>
              forall i | 0 <= i < |items| :: items[i].PyStr? && items[i].s in ColumnNames(cols)
    ensures FieldsError(items, cols) != None ==>
              exists k | 0 <= k < |items| ::
                FieldsError(items, cols) == CheckField(items[k], cols) &&
                forall j | 0 <= j < k :: CheckField(items[j], cols) == None
    decreases |items|
  {
    if items != [] && CheckField(items[0], cols) == None {
      FieldsErrorIsFirstFailure(items[1..], cols);
      var tail := items[1..];
      if FieldsError(items, cols) != None {
        var k :| 0 <= k < |tail| && FieldsError(tail, cols) == CheckField(tail[k], cols) &&
                 forall j | 0 <= j < k :: CheckField(tail[j], cols) == None;
        assert tail[k] == items[k + 1];
        forall j | 0 <= j < k + 1 ensures CheckField(items[j], cols) == None {
          if j > 0 { assert items[j] == tail[j - 1]; }
        }
      } else {
        forall i | 0 <= i < |items| ensures items[i].PyStr? && items[i].s in ColumnNames(cols) {
          if i > 0 { assert items[i] == tail[i - 1]; }
        }
      }
    }
  }

  /** The checking loop run by the dimension and metric setters. */
  method FirstFieldError(items: seq<PyValue>, cols: Catalog) returns (err: Option<Error>)
    ensures err == FieldsError(items, cols)
  {
    var i := 0;
    while i < |items|
      invariant 0 <= i <= |items|
      invariant FieldsError(items, cols) == FieldsError(items[i..], cols)
    {
      assert items[i..][1..] == items[i + 1..];
      var e := CheckField(items[i], cols);
      if e != None {
        return e;
      }
      i := i + 1;
    }
    return None;
  }

  /** The dimensions setter: anything but a list raises NotAListException, an
      empty list EmptyListException, then each element is checked as a
      field. */
  function DimensionsError(v: PyValue, cols: Catalog): Option<Error> {
    if !v.PyList? then Some(NotAListException)
    else if |v.items| < 1 then Some(EmptyListException)
    else FieldsError(v.items, cols)
  }

  /** The dimensions are accepted exactly when they are a non-empty list
      of column names; otherwise the error is, in this order of precedence,
      NotAListException, EmptyListException, or the first bad element's. */
  lemma DimensionsRejectedInOrder(v: PyValue, cols: Catalog)
    ensures DimensionsError(v, cols) == None <==>
              v.PyList? && |v.items| >= 1 &&
              forall i | 0 <= i < |v.items| :: v.items[i].PyStr? && v.items[i].s in ColumnNames(cols)
    ensures !v.PyList? ==> DimensionsError(v, cols) == Some(NotAListException)
    ensures v.PyList? && v.items == [] ==> DimensionsError(v, cols) == Some(EmptyListException)
    ensures v.PyList? && v.items != [] && DimensionsError(v, cols) != None ==>
              DimensionsError(v, cols) in {Some(WrongFieldName), Some(TypeError)}
  {
    if v.PyList? && v.items != [] {
      FieldsErrorIsFirstFailure(v.items, cols);
    }
  }

  /** The metrics setter iterates its value without checking that it is a
      list: None (the default) and numbers raise TypeError, a string is
      checked character by character, and every item must be a column. */
  function MetricsError(v: PyValue, cols: Catalog): Option<Error> {
    match Iterate(v)
    case None => Some(TypeError)
    case Some(items) => FieldsError(items, cols)
  }

  /** The metrics are accepted exactly when iterating them yields only
      column names. */
  lemma MetricsAccepted(v: PyValue, cols: Catalog)
    ensures MetricsError(v, cols) == None <==>
              Iterate(v).Some? &&
              forall i | 0 <= i < |Iterate(v).value| ::
                Iterate(v).value[i].PyStr? && Iterate(v).value[i].s in ColumnNames(cols)
    ensures v == PyNone ==> MetricsError(v, cols) == Some(TypeError)
    ensures MetricsError(v, cols) != None ==>
              MetricsError(v, cols) in {Some(WrongFieldName), Some(TypeError)}
  {
    if Iterate(v).Some? {
      FieldsErrorIsFirstFailure(Iterate(v).value, cols);
    }
  }

  /** A string given as metrics passes exactly when each of its characters
      is itself a column name. */
  lemma StringMetricsAreCharacters(s: string, cols: Catalog)
    ensures MetricsError(PyStr(s), cols) == None <==> forall i | 0 <= i < |s| :: [s[i]] in ColumnNames(cols)
  {
    MetricsAccepted(PyStr(s), cols);
    var items := Iterate(PyStr(s)).value;
    assert forall i | 0 <= i < |s| :: items[i] == PyStr([s[i]]);
  }

  /** The outcomes of the x, y, aggregation and sort setters, in the order
      the plot classes call them. */
  function FieldChecks(cols: Catalog, x: PyValue, y: PyValue, aggregation: PyValue, sort: PyValue)
    : seq<Option<Error>>
  {
    [CheckField(x, cols), CheckField(y, cols), CheckAggregation(aggregation), CheckSort(sort)]
  }

  /** The four setters all pass exactly when x and y are column names and
      the aggregation and the sort direction are valid. */
  lemma FieldChecksPass(cols: Catalog, x: PyValue, y: PyValue, aggregation: PyValue, sort: PyValue)
    ensures FirstError(FieldChecks(cols, x, y, aggregation, sort)) == None <==>
              x.PyStr? && x.s in ColumnNames(cols) && y.PyStr? && y.s in ColumnNames(cols) &&
              CheckAggregation(aggregation) == None && CheckSort(sort) == None
  {
    var checks := FieldChecks(cols, x, y, aggregation, sort);
    if FirstError(checks) == None {
      assert checks[0] == None && checks[1] == None && checks[2] == None && checks[3] == None;
    } else {
      var i :| 0 <= i < 4 && checks[i] != None;
      assert i == 0 || i == 1 || i == 2 || i == 3;
    }
  }

  /** The error of a sequence of setter calls: the first one that raises
      stops the sequence. */
  function FirstError(checks: seq<Option<Error>>): (r: Option<Error>)
    ensures r == None <==> forall i | 0 <= i < |checks| :: checks[i] == None
    ensures r != None ==> exists k | 0 <= k < |checks| :: r == checks[k] && forall j | 0 <= j < k :: checks[j] == None
    decreases |checks|
  {
    if checks == [] then None
    else if checks[0] != None then checks[0]
    else
      var rest := FirstError(checks[1..]);
      assert forall i | 0 < i < |checks| :: checks[i] == checks[1..][i - 1];
      assert rest != None ==> exists k | 0 <= k < |checks[1..]| :: rest == checks[1..][k] && forall j | 0 <= j < k :: checks[1..][j] == None;
      rest
  }

  /** The error of the sequence is that of the first check that fails. */
  lemma {:induction false} FirstErrorIsFirstFailure(checks: seq<Option<Error>>, k: nat)
    requires k < |checks| && checks[k] != None
    requires forall j | 0 <= j < k :: checks[j] == None
    ensures FirstError(checks) == checks[k]
    decreases k
  {
    if k > 0 {
      FirstErrorIsFirstFailure(checks[1..], k - 1);
    }
  }
}
