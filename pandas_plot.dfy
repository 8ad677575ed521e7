/**
 * The pandas plot: x, y, the aggregation and the sort direction are checked
 * against the data frame's columns by the property setters, and
 * `_filter_data` validates each `(column, operand, values)` filter and then
 * narrows the working frame `df2` to the rows that satisfy it, keeping their
 * order. The original frame `df` is never changed.
 *
 * The element-wise comparison pandas performs for `eq`, `ne`, `gt`, `lt`,
 * `ge` and `le` (with its cross-type rules and missing values) is a
 * parameter, `compare`; `isin` is equality under the same `eq`.
 */
module PandasPlotting {
  import opened Python
  import opened Utils
  import opened Validation
  import opened Filtering

  /** One row of a frame: the value of each column it holds. */
  type Row = map<string, PyValue>

  datatype Frame = Frame(columns: seq<string>, rows: seq<Row>)

  /** pandas' element-wise comparison of a cell with a value. */
  type Compare = (string, PyValue, PyValue) -> bool

  /** The value a row holds in a column; a missing entry reads as None. */
  function Cell(row: Row, col: string): PyValue {
    if col in row then row[col] else PyNone
  }

  /** A filter the loop gets as far as applying: a 3-tuple whose column and
      operand are strings. */
  predicate IsCondition(f: PyValue) {
    f.PyTuple? && |f.items| == 3 && f.items[0].PyStr? && f.items[1].PyStr?
  }

  lemma WellFormedIsCondition(f: PyValue, cols: Catalog, shapes: SetShapes)
    requires WellFormedFilter(f, cols, shapes)
    ensures IsCondition(f)
  {
  }

  /** The items of an `in`/`nin` value (a list, tuple or set). */
  function Members(v: PyValue): (r: seq<PyValue>)
    ensures v.PyList? || v.PyTuple? || v.PySet? ==> r == v.items
  {
    if v.PyList? || v.PyTuple? || v.PySet? then v.items else []
  }

  /** `isin`: the cell equals one of the items. */
  function IsIn(cell: PyValue, items: seq<PyValue>, compare: Compare): (r: bool)
    ensures r <==> exists i | 0 <= i < |items| :: compare("eq", cell, items[i])
    decreases |items|
  {
    if items == [] then false
    else
      var rest := IsIn(cell, items[1..], compare);
      assert forall i | 1 <= i < |items| :: items[i] == items[1..][i - 1];
      compare("eq", cell, items[0]) || rest
  }

  /** Whether a row is kept by a filter: `isin` for `in`, its negation for
      `nin`, and the comparison named by the operand otherwise. */
  predicate Keep(row: Row, f: PyValue, compare: Compare)
    requires IsCondition(f)
  {
    var col, operand, values := f.items[0].s, f.items[1].s, f.items[2];
    if operand == "in" then IsIn(Cell(row, col), Members(values), compare)
    else if operand == "nin" then !IsIn(Cell(row, col), Members(values), compare)
    else compare(operand, Cell(row, col), values)
  }

  /** `df2.loc[mask]` for one filter: the rows the filter keeps, in their
      order. */
  function Select(rows: seq<Row>, f: PyValue, compare: Compare): (r: seq<Row>)
    requires IsCondition(f)
    ensures |r| <= |rows|
    ensures forall row :: row in r <==> row in rows && Keep(row, f, compare)
    decreases |rows|
  {
    if rows == [] then []
    else
      var rest := Select(rows[1..], f, compare);
      assert forall row :: row in rows <==> row == rows[0] || row in rows[1..];
      if Keep(rows[0], f, compare) then [rows[0]] + rest else rest
  }

  /** A filter keeps every copy of a kept row and no copy of a dropped one. */
  lemma {:induction false} SelectCounts(rows: seq<Row>, f: PyValue, compare: Compare, row: Row)
    requires IsCondition(f)
    ensures multiset(Select(rows, f, compare))[row] == if Keep(row, f, compare) then multiset(rows)[row] else 0
    decreases |rows|
  {
    if rows != [] {
      SelectCounts(rows[1..], f, compare, row);
      assert rows == [rows[0]] + rows[1..];
      assert multiset(rows) == multiset([rows[0]]) + multiset(rows[1..]);
      if Keep(rows[0], f, compare) {
        var rest := Select(rows[1..], f, compare);
        assert multiset([rows[0]] + rest) == multiset([rows[0]]) + multiset(rest);
      }
    }
  }

  /** idx places the items of a, in order, at increasing positions of b. */
  predicate IsEmbedding(idx: seq<int>, a: seq<Row>, b: seq<Row>) {
    |idx| == |a| &&
    (forall i | 0 <= i < |idx| :: 0 <= idx[i] < |b| && b[idx[i]] == a[i]) &&
    (forall i, j | 0 <= i < j < |idx| :: idx[i] < idx[j])
  }

  /** a is b with some rows removed and the rest in their order. */
  ghost predicate IsSubsequence(a: seq<Row>, b: seq<Row>) {
    exists idx :: IsEmbedding(idx, a, b)
  }

  lemma SubsequenceIsShorter(a: seq<Row>, b: seq<Row>)
    requires IsSubsequence(a, b)
    ensures |a| <= |b|
  {
    var idx :| IsEmbedding(idx, a, b);
    StrictlyIncreasingBound(idx, |b|);
  }

  lemma {:induction false} StrictlyIncreasingBound(idx: seq<int>, n: int)
    requires 0 <= n
    requires forall i | 0 <= i < |idx| :: 0 <= idx[i] < n
    requires forall i, j | 0 <= i < j < |idx| :: idx[i] < idx[j]
    ensures |idx| <= n
    decreases |idx|
  {
    if |idx| > 0 {
      var last := idx[|idx| - 1];
      var init := idx[..|idx| - 1];
      assert 0 <= last < n;
      assert forall i | 0 <= i < |init| :: init[i] == idx[i] && idx[i] < last;
      StrictlyIncreasingBound(init, last);
    }
  }

  /** Removing rows twice is removing rows. */
  lemma SubsequenceTransitive(a: seq<Row>, b: seq<Row>, c: seq<Row>)
    requires IsSubsequence(a, b) && IsSubsequence(b, c)
    ensures IsSubsequence(a, c)
  {
    var i1 :| IsEmbedding(i1, a, b);
    var i2 :| IsEmbedding(i2, b, c);
    var idx := seq(|i1|, k requires 0 <= k < |i1| => i2[i1[k]]);
    assert IsEmbedding(idx, a, c);
  }

  lemma SubsequenceOfItself(a: seq<Row>)
    ensures IsSubsequence(a, a)
  {
    var idx := seq(|a|, k requires 0 <= k < |a| => k);
    assert IsEmbedding(idx, a, a);
  }

  /** An embedding into b extends to one into b with a row put in front,
      whether or not that row is kept. */
  lemma EmbeddingExtends(idx: seq<int>, a: seq<Row>, b: seq<Row>, row: Row)
    requires IsEmbedding(idx, a, b)
    ensures IsSubsequence(a, [row] + b) && IsSubsequence([row] + a, [row] + b)
  {
    var shifted := seq(|idx|, k requires 0 <= k < |idx| => idx[k] + 1);
    assert IsEmbedding(shifted, a, [row] + b);
    assert IsEmbedding([0] + shifted, [row] + a, [row] + b);
  }

  /** One filter keeps a subsequence of the rows. */
  lemma {:induction false} SelectIsSubsequence(rows: seq<Row>, f: PyValue, compare: Compare)
    requires IsCondition(f)
    ensures IsSubsequence(Select(rows, f, compare), rows)
    decreases |rows|
  {
    if rows == [] {
      assert IsEmbedding([], [], rows);
    } else {
      var rest := Select(rows[1..], f, compare);
      SelectIsSubsequence(rows[1..], f, compare);
      var idx :| IsEmbedding(idx, rest, rows[1..]);
      EmbeddingExtends(idx, rest, rows[1..], rows[0]);
      assert rows == [rows[0]] + rows[1..];
    }
  }

  /** Filtering by one condition and then another is filtering by the two
      in the other order. */
  lemma {:induction false} SelectCommutes(rows: seq<Row>, f: PyValue, g: PyValue, compare: Compare)
    requires IsCondition(f) && IsCondition(g)
    ensures Select(Select(rows, f, compare), g, compare) == Select(Select(rows, g, compare), f, compare)
    decreases |rows|
  {
    if rows != [] {
      SelectCommutes(rows[1..], f, g, compare);
    }
  }

  /** Filtering by a condition twice is filtering by it once. */
  lemma {:induction false} SelectIdempotent(rows: seq<Row>, f: PyValue, compare: Compare)
    requires IsCondition(f)
    ensures Select(Select(rows, f, compare), f, compare) == Select(rows, f, compare)
    decreases |rows|
  {
    if rows != [] {
      SelectIdempotent(rows[1..], f, compare);
    }
  }

  predicate AllConditions(fs: seq<PyValue>) {
    forall k | 0 <= k < |fs| :: IsCondition(fs[k])
  }

  /** The loop's effect on `df2`: the filters applied one after another. */
  function SelectAll(rows: seq<Row>, fs: seq<PyValue>, compare: Compare): seq<Row>
    requires AllConditions(fs)
    decreases |fs|
  {
    if fs == [] then rows
    else Select(SelectAll(rows, fs[..|fs| - 1], compare), fs[|fs| - 1], compare)
  }

  /** One more filter narrows the rows the earlier ones left. */
  lemma SelectAllStep(rows: seq<Row>, items: seq<PyValue>, i: nat, compare: Compare)
    requires i < |items| && AllConditions(items[..i + 1])
    ensures AllConditions(items[..i]) && IsCondition(items[i])
    ensures SelectAll(rows, items[..i + 1], compare) == Select(SelectAll(rows, items[..i], compare), items[i], compare)
  {
    assert items[..i + 1][..i] == items[..i];
    assert items[..i + 1][i] == items[i];
  }

  /** The rows left by a sequence of filters are the rows every one of
      them keeps. */
  lemma {:induction false} SelectAllMeaning(rows: seq<Row>, fs: seq<PyValue>, compare: Compare)
    requires AllConditions(fs)
    ensures forall row :: row in SelectAll(rows, fs, compare) <==>
              row in rows && forall k | 0 <= k < |fs| :: Keep(row, fs[k], compare)
    decreases |fs|
  {
    if fs != [] {
      var init := fs[..|fs| - 1];
      SelectAllMeaning(rows, init, compare);
      assert forall k | 0 <= k < |init| :: init[k] == fs[k];
    }
  }

  /** A sequence of filters leaves an order-preserving subsequence of the
      rows, so the row count never grows. */
  lemma {:induction false} SelectAllIsSubsequence(rows: seq<Row>, fs: seq<PyValue>, compare: Compare)
    requires AllConditions(fs)
    ensures IsSubsequence(SelectAll(rows, fs, compare), rows)
    ensures |SelectAll(rows, fs, compare)| <= |rows|
    decreases |fs|
  {
    if fs == [] {
      SubsequenceOfItself(rows);
    } else {
      var init := fs[..|fs| - 1];
      var before := SelectAll(rows, init, compare);
      SelectAllIsSubsequence(rows, init, compare);
      SelectIsSubsequence(before, fs[|fs| - 1], compare);
      SubsequenceTransitive(SelectAll(rows, fs, compare), before, rows);
    }
    SubsequenceIsShorter(SelectAll(rows, fs, compare), rows);
  }

  /** The position of the first filter that fails its checks, or the
      number of filters when none does. */
  function FirstBad(items: seq<PyValue>, columns: seq<string>): (k: nat)
    ensures k <= |items|
    ensures forall j | 0 <= j < k :: WellFormedFilter(items[j], ColumnList(columns), ListTupleOrSet)
    ensures k < |items| ==> !WellFormedFilter(items[k], ColumnList(columns), ListTupleOrSet)
    decreases |items|
  {
    if items == [] then 0
    else if CheckFilter(items[0], ColumnList(columns), ListTupleOrSet) != None then 0
    else
      var k := FirstBad(items[1..], columns);
      assert forall j | 1 <= j < |items| :: items[j] == items[1..][j - 1];
      1 + k
  }

  /** What `_filter_data` raises: None applies nothing, a non-list and an
      empty list are refused, and otherwise the first failing filter is. */
  function PandasFilterError(filters: PyValue, columns: seq<string>): Option<Error> {
    if filters == PyNone then None
    else if !filters.PyList? || |filters.items| == 0 then Some(WrongFilterException)
    else
      var k := FirstBad(filters.items, columns);
      if k < |filters.items| then CheckFilter(filters.items[k], ColumnList(columns), ListTupleOrSet) else None
  }

  /** The filters the loop applies before it stops: all of them, or those
      before the first that fails. */
  function AppliedFilters(filters: PyValue, columns: seq<string>): (fs: seq<PyValue>)
    ensures AllConditions(fs)
  {
    if filters == PyNone || !filters.PyList? then []
    else
      var fs := filters.items[..FirstBad(filters.items, columns)];
      assert forall k | 0 <= k < |fs| :: fs[k] == filters.items[k];
      forall k | 0 <= k < |fs| ensures IsCondition(fs[k]) {
        WellFormedIsCondition(fs[k], ColumnList(columns), ListTupleOrSet);
      }
      fs
  }

  /** Every filter failure is WrongFilterException; the filters pass
      exactly when they are None or a non-empty list of well-formed
      filters, and then every one of them is applied. */
  lemma PandasFilterOutcome(filters: PyValue, columns: seq<string>)
    ensures PandasFilterError(filters, columns) in {None, Some(WrongFilterException)}
    ensures PandasFilterError(filters, columns) == None <==>
              filters == PyNone ||
              (filters.PyList? && |filters.items| > 0 &&
               forall k | 0 <= k < |filters.items| :: WellFormedFilter(filters.items[k], ColumnList(columns), ListTupleOrSet))
    ensures PandasFilterError(filters, columns) == None && filters.PyList? ==> AppliedFilters(filters, columns) == filters.items
  {
  }

  /** What `__init__` raises: the x, y, aggregation and sort setters, then
      the filter loop. */
  function PandasInitError(df: Frame, x: PyValue, y: PyValue, aggregation: PyValue, sort: PyValue, filters: PyValue)
    : Option<Error>
  {
    var e := FirstError(FieldChecks(ColumnList(df.columns), x, y, aggregation, sort));
    if e != None then e else PandasFilterError(filters, df.columns)
  }

  /** Construction succeeds exactly when x and y are columns of the frame,
      the aggregation and the sort direction are valid, and the filters
      pass. */
  lemma PandasInitAccepts(df: Frame, x: PyValue, y: PyValue, aggregation: PyValue, sort: PyValue, filters: PyValue)
    ensures PandasInitError(df, x, y, aggregation, sort, filters) == None <==>
              x.PyStr? && x.s in df.columns && y.PyStr? && y.s in df.columns &&
              CheckAggregation(aggregation) == None && CheckSort(sort) == None &&
              PandasFilterError(filters, df.columns) == None
  {
    FieldChecksPass(ColumnList(df.columns), x, y, aggregation, sort);
  }

  class PandasPlot {
    /** The frame given to `__init__`. */
    var df: Frame
    /** The working frame the filters narrow. */
    var df2: Frame
    var x: PyValue
    var y: PyValue
    var aggregation: PyValue
    var sort: PyValue
    var filters: PyValue

    /** An object before `__init__` has run. */
    constructor ()
      ensures df == Frame([], []) && df2 == Frame([], [])
      ensures x == PyNone && y == PyNone && aggregation == PyNone && sort == PyNone && filters == PyNone
    {
      df, df2 := Frame([], []), Frame([], []);
      x, y, aggregation, sort, filters := PyNone, PyNone, PyNone, PyNone, PyNone;
    }

    /** The x setter: a column of `df`, stored only when it passes. */
    method SetX(v: PyValue) returns (err: Option<Error>)
      modifies this`x
      ensures err == CheckField(v, ColumnList(df.columns))
      ensures x == if err == None then v else old(x)
    {
      err := CheckField(v, ColumnList(df.columns));
      if err == None {
        x := v;
      }
    }

    /** The y setter: a column of `df`, stored only when it passes. */
    method SetY(v: PyValue) returns (err: Option<Error>)
      modifies this`y
      ensures err == CheckField(v, ColumnList(df.columns))
      ensures y == if err == None then v else old(y)
    {
      err := CheckField(v, ColumnList(df.columns));
      if err == None {
        y := v;
      }
    }

    /** The aggregation setter. */
    method SetAggregation(v: PyValue) returns (err: Option<Error>)
      modifies this`aggregation
      ensures err == CheckAggregation(v)
      ensures aggregation == if err == None then v else old(aggregation)
    {
      err := CheckAggregation(v);
      if err == None {
        aggregation := v;
      }
    }

    /** The sort setter. */
    method SetSort(v: PyValue) returns (err: Option<Error>)
      modifies this`sort
      ensures err == CheckSort(v)
      ensures sort == if err == None then v else old(sort)
    {
      err := CheckSort(v);
      if err == None {
        sort := v;
      }
    }

    /** The four setters in `__init__`'s order; the first that raises stops
        the rest. */
    method SetFields(x: PyValue, y: PyValue, aggregation: PyValue, sort: PyValue) returns (err: Option<Error>)
      modifies this`x, this`y, this`aggregation, this`sort
      ensures err == FirstError(FieldChecks(ColumnList(df.columns), x, y, aggregation, sort))
      ensures err == None ==>
                this.x == x && this.y == y && this.aggregation == aggregation && this.sort == sort
    {
      ghost var checks := FieldChecks(ColumnList(df.columns), x, y, aggregation, sort);
      err := SetX(x);
      if err != None { FirstErrorIsFirstFailure(checks, 0); return; }
      err := SetY(y);
      if err != None { FirstErrorIsFirstFailure(checks, 1); return; }
      err := SetAggregation(aggregation);
      if err != None { FirstErrorIsFirstFailure(checks, 2); return; }
      err := SetSort(sort);
      if err != None { FirstErrorIsFirstFailure(checks, 3); return; }
    }

    /** `_filter_data`: each filter is checked against the columns of `df`
        and then narrows `df2`; on a failing filter the loop stops with the
        filters before it already applied. */
    method FilterData(compare: Compare) returns (err: Option<Error>)
      modifies this`df2
      ensures err == PandasFilterError(filters, df.columns)
      ensures df2 == Frame(old(df2).columns, SelectAll(old(df2).rows, AppliedFilters(filters, df.columns), compare))
    {
      if filters == PyNone {
        return None;
      }
      if !filters.PyList? || |filters.items| == 0 {
        return Some(WrongFilterException);
      }
      var items := filters.items;
      ghost var bad := FirstBad(items, df.columns);
      ghost var applied := AppliedFilters(filters, df.columns);
      var i := 0;
      while i < |items|
        invariant 0 <= i <= bad && AllConditions(applied[..i]) && applied[..i] == items[..i]
        invariant df2 == Frame(old(df2).columns, SelectAll(old(df2).rows, applied[..i], compare))
      {
        var e := CheckFilter(items[i], ColumnList(df.columns), ListTupleOrSet);
        if e != None {
          assert i == bad;
          return e;
        }
        SelectAllStep(old(df2).rows, applied, i, compare);
        df2 := Frame(df2.columns, Select(df2.rows, items[i], compare));
        i := i + 1;
      }
      assert applied[..i] == applied;
      err := None;
    }

    /** `__init__`: both frames start as the given one, the setters run,
        the filters are stored as given and applied to `df2`. */
    method Init(df: Frame, x: PyValue, y: PyValue, aggregation: PyValue, sort: PyValue, filters: PyValue,
                compare: Compare)
      returns (err: Option<Error>)
      modifies this`df, this`df2, this`x, this`y, this`aggregation, this`sort, this`filters
      ensures err == PandasInitError(df, x, y, aggregation, sort, filters)
      ensures err == None ==>
                this.df == df && this.x == x && this.y == y && this.aggregation == aggregation &&
                this.sort == sort && this.filters == filters &&
                df2 == Frame(df.columns, SelectAll(df.rows, AppliedFilters(filters, df.columns), compare))
    {
      Load(df);
      err := SetFields(x, y, aggregation, sort);
      if err != None {
        return;
      }
      err := PrepData(filters, compare);
    }

    /** The start of `__init__`: the working frame is the given frame. */
    method Load(df: Frame)
      modifies this`df, this`df2
      ensures this.df == df && df2 == df
    {
      this.df, this.df2 := df, df;
    }

    /** The end of `__init__`: the filters are stored as given and
        `_prep_data` applies them to `df2`. */
    method PrepData(filters: PyValue, compare: Compare) returns (err: Option<Error>)
      modifies this`filters, this`df2
      ensures err == PandasFilterError(filters, df.columns)
      ensures this.filters == filters
      ensures df2 == Frame(old(df2).columns, SelectAll(old(df2).rows, AppliedFilters(filters, df.columns), compare))
    {
      this.filters := filters;
      err := FilterData(compare);
    }
  }
}
