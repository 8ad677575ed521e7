/**
 * Filter validation and rendering: each filter is a `(column, operand,
 * values)` tuple checked against the column catalog and the operator names,
 * with the value's shape matched to the operator's class, and then rendered
 * as one `AND column SYMBOL value ` clause.
 */
module Filtering {
  import opened Python
  import opened Text
  import opened Utils
  import opened Validation

  /** What the `in`/`nin` operators accept as their value: a list (the SQL
      builders) or a list, tuple or set (the pandas plot). */
  datatype SetShapes = ListOnly | ListTupleOrSet

  predicate IsSetValue(v: PyValue, shapes: SetShapes) {
    v.PyList? || (shapes == ListTupleOrSet && (v.PyTuple? || v.PySet?))
  }

  /** A filter that passes every check: a 3-tuple whose column is in the
      catalog, whose operand is an operator name, and whose value is a
      collection for `in`/`nin` and a scalar for the other operators. */
  predicate WellFormedFilter(f: PyValue, cols: Catalog, shapes: SetShapes) {
    f.PyTuple? && |f.items| == 3
    && f.items[0].PyStr? && f.items[0].s in ColumnNames(cols)
    && f.items[1].PyStr? && f.items[1].s in OPERAND_TYPES
    && (if f.items[1].s in SET_OPERANDS then IsSetValue(f.items[2], shapes) else IsScalar(f.items[2]))
  }

  /** The checks of one filter, in the order the loop performs them. Every
      failure raises WrongFilterException, except the TypeError a dict
      catalog raises for an unhashable column value. */
  function CheckFilter(f: PyValue, cols: Catalog, shapes: SetShapes): (r: Option<Error>)
    ensures r == None <==> WellFormedFilter(f, cols, shapes)
    ensures r != None ==>
              r == Some(WrongFilterException) ||
              (r == Some(TypeError) && cols.ColumnTypes? && f.PyTuple? && |f.items| == 3 && !Hashable(f.items[0]))
  {
    if !f.PyTuple? || |f.items| != 3 then Some(WrongFilterException)
    else
      var col, operand, values := f.items[0], f.items[1], f.items[2];
      NameListContains(OPERAND_TYPES, operand);
      NameListContains(SET_OPERANDS, operand);
      match ColumnIn(col, cols)
      case Err(e) => Some(e)
      case Ok(found) =>
        if !found then Some(WrongFilterException)
        else if !ListContains(Strs(OPERAND_TYPES), operand) then Some(WrongFilterException)
        else if ListContains(Strs(SET_OPERANDS), operand) && !IsSetValue(values, shapes) then Some(WrongFilterException)
        else if !ListContains(Strs(SET_OPERANDS), operand) && !IsScalar(values) then Some(WrongFilterException)
        else None
  }

  /** The quote put around a value: a string is quoted, a number is not. */
  function Quote(v: PyValue): string {
    if v.PyStr? then "'" else ""
  }

  /** A scalar value is quoted exactly when it is a string; a number's text
      is unquoted and holds no quote. */
  lemma ScalarQuoting(v: PyValue)
    requires IsScalar(v)
    ensures Quote(v) == "'" <==> v.PyStr?
    ensures !v.PyStr? ==> '\'' !in Quote(v) + Str(v) + Quote(v)
  {
    if !v.PyStr? {
      NonStringTextHasNoQuote(v);
      assert Quote(v) + Str(v) + Quote(v) == Str(v);
    }
  }

  /** The str() text of each of the values. */
  function Texts(items: seq<PyValue>): (r: seq<string>)
    requires forall i | 0 <= i < |items| :: IsScalar(items[i])
    ensures |r| == |items| && forall i | 0 <= i < |items| :: r[i] == Str(items[i])
  {
    seq(|items|, i requires 0 <= i < |items| => Str(items[i]))
  }

  /** The parenthesised value list exactly as written: `values[0]` raises
      IndexError on an empty list, and `str.join` raises TypeError unless
      every value is a string, so only lists of strings render. */
  function SetLiteralAsWritten(items: seq<PyValue>): Result<string> {
    if |items| == 0 then Err(IndexError)
    else if exists i | 0 <= i < |items| :: !items[i].PyStr? then Err(TypeError)
    else
      var q := Quote(items[0]);
      Ok("(" + q + Join(Texts(items), q + "," + q) + q + ")")
  }

  /** The parenthesised value list as intended: each value by its str()
      text, quoted when the first value is a string. */
  function SetLiteral(items: seq<PyValue>): Result<string> {
    if |items| == 0 then Err(IndexError)
    else if exists i | 0 <= i < |items| :: !IsScalar(items[i]) then Err(TypeError)
    else
      var q := Quote(items[0]);
      Ok("(" + q + Join(Texts(items), q + "," + q) + q + ")")
  }

  /** The list of 10 and 20 is refused as written and renders as `(10,20)`
      once numbers are turned into text. */
  lemma NumericSetLiteral()
    ensures SetLiteralAsWritten([PyInt(10), PyInt(20)]) == Err(TypeError)
    ensures SetLiteral([PyInt(10), PyInt(20)]) == Ok("(10,20)")
  {
    var items := [PyInt(10), PyInt(20)];
    assert !items[0].PyStr?;
    assert Str(PyInt(10)) == "10" by {
      assert NatToDecimal(10) == NatToDecimal(1) + [DigitChar(0)];
    }
    assert Str(PyInt(20)) == "20" by {
      assert NatToDecimal(20) == NatToDecimal(2) + [DigitChar(0)];
    }
    assert forall i | 0 <= i < |items| :: IsScalar(items[i]);
    var ts := Texts(items);
    assert ts == ["10", "20"];
    assert ts[1..] == ["20"];
    assert Join(ts, ",") == "10" + "," + "20" == "10,20";
    assert Quote(items[0]) == "";
    assert "" + "," + "" == ",";
    assert "(" + "" + "10,20" + "" + ")" == "(10,20)";
    assert SetLiteral(items) == Ok("(" + "" + Join(ts, "" + "," + "") + "" + ")");
  }

  /** Wherever the as-written list renders, the intended one renders the
      same text. */
  lemma SetLiteralExtendsAsWritten(items: seq<PyValue>)
    requires SetLiteralAsWritten(items).Ok?
    ensures SetLiteral(items) == SetLiteralAsWritten(items)
  {
  }

  /** Each value wrapped in the quote. */
  function Wrapped(ts: seq<string>, q: string): (r: seq<string>)
    ensures |r| == |ts| && forall i | 0 <= i < |ts| :: r[i] == q + ts[i] + q
  {
    seq(|ts|, i requires 0 <= i < |ts| => q + ts[i] + q)
  }

  lemma {:induction false} JoinWrapped(ts: seq<string>, q: string)
    requires |ts| >= 1
    ensures q + Join(ts, q + "," + q) + q == Join(Wrapped(ts, q), ",")
    decreases |ts|
  {
    if |ts| > 1 {
      JoinWrapped(ts[1..], q);
      assert Wrapped(ts, q)[1..] == Wrapped(ts[1..], q);
      assert q + Join(ts, q + "," + q) + q
          == (q + ts[0] + q) + "," + (q + Join(ts[1..], q + "," + q) + q);
    } else {
      assert Join(Wrapped(ts, q), ",") == q + ts[0] + q;
    }
  }

  /** The rendered list reads back as the quoted values: between the
      parentheses, splitting at commas gives each value's text inside the
      quote, provided no value's text holds a comma. */
  lemma SetLiteralRoundTrip(items: seq<PyValue>)
    requires SetLiteral(items).Ok?
    requires forall i | 0 <= i < |items| :: ',' !in Str(items[i])
    ensures var lit := SetLiteral(items).value;
            |lit| >= 2 && lit[0] == '(' && lit[|lit| - 1] == ')' &&
            Split(lit[1..|lit| - 1], ',') == Wrapped(Texts(items), Quote(items[0]))
  {
    var q := Quote(items[0]);
    var ts := Texts(items);
    var inner := q + Join(ts, q + "," + q) + q;
    var lit := SetLiteral(items).value;
    assert lit == "(" + inner + ")";
    assert lit[1..|lit| - 1] == inner;
    JoinWrapped(ts, q);
    var ws := Wrapped(ts, q);
    forall i | 0 <= i < |ws| ensures ',' !in ws[i] {
      assert ws[i] == q + ts[i] + q;
    }
    SplitJoin(ws, ',');
  }

  /** The clause of a comparison filter: the column, the operator's SQL
      symbol and the value's text, quoted when it is a string. */
  function ScalarClause(col: string, operand: string, v: PyValue): string
    requires operand in OPERAND_MAP && IsScalar(v)
  {
    "AND " + col + " " + OPERAND_MAP[operand] + " " + Quote(v) + Str(v) + Quote(v) + " "
  }

  /** The clause of an `in`/`nin` filter: the column, the operator's SQL
      symbol and the parenthesised value list. */
  function SetClause(col: string, operand: string, literal: string): string
    requires operand in OPERAND_MAP
  {
    "AND " + col + " " + OPERAND_MAP[operand] + " " + literal + " "
  }

  /** A set clause spelled out around its parenthesised literal. */
  lemma SetClauseText(col: string, operand: string, q: string, j: string)
    requires operand in OPERAND_MAP
    ensures SetClause(col, operand, "(" + q + j + q + ")") ==
              "AND " + col + " " + OPERAND_MAP[operand] + " (" + q + j + q + ") "
  {
    assert " " + ("(" + q + j + q + ")") + " " == " (" + q + j + q + ") ";
  }

  /** One iteration of the SQL builders' filter loop: the checks, then the
      clause for the filter (set values must be lists). */
  function FilterClause(f: PyValue, cols: Catalog): Result<string> {
    match CheckFilter(f, cols, ListOnly)
    case Some(e) => Err(e)
    case None =>
      var col, operand, values := f.items[0].s, f.items[1].s, f.items[2];
      OperandMapKeys();
      if operand in SCALAR_OPERANDS then Ok(ScalarClause(col, operand, values))
      else
        match SetLiteral(values.items)
        case Err(e) => Err(e)
        case Ok(literal) => Ok(SetClause(col, operand, literal))
  }

  /** A filter renders exactly when it passes its checks and, for `in` and
      `nin`, its list is non-empty and holds only scalars. It renders as
      `AND column SYMBOL value `, the value quoted exactly when it is a
      string (for a list: when its first item is). */
  lemma FilterClauseMeaning(f: PyValue, cols: Catalog)
    ensures FilterClause(f, cols).Ok? <==>
              WellFormedFilter(f, cols, ListOnly) &&
              (f.items[1].s in SET_OPERANDS ==>
                 |f.items[2].items| > 0 && forall i | 0 <= i < |f.items[2].items| :: IsScalar(f.items[2].items[i]))
    ensures FilterClause(f, cols).Err? && WellFormedFilter(f, cols, ListOnly) ==>
              f.items[1].s in SET_OPERANDS && FilterClause(f, cols).error in {IndexError, TypeError}
    ensures FilterClause(f, cols).Ok? && f.items[1].s in SCALAR_OPERANDS ==>
              FilterClause(f, cols).value ==
                "AND " + f.items[0].s + " " + OPERAND_MAP[f.items[1].s] + " " +
                Quote(f.items[2]) + Str(f.items[2]) + Quote(f.items[2]) + " "
    ensures FilterClause(f, cols).Ok? && f.items[1].s in SET_OPERANDS ==>
              FilterClause(f, cols).value ==
                "AND " + f.items[0].s + " " + OPERAND_MAP[f.items[1].s] + " (" +
                Quote(f.items[2].items[0]) +
                Join(Texts(f.items[2].items), Quote(f.items[2].items[0]) + "," + Quote(f.items[2].items[0])) +
                Quote(f.items[2].items[0]) + ") "
  {
    if WellFormedFilter(f, cols, ListOnly) {
      OperandClassesPartition();
      OperandMapKeys();
      var operand, values := f.items[1].s, f.items[2];
      if operand in SET_OPERANDS {
        assert operand !in SCALAR_OPERANDS;
        var items := values.items;
        if |items| > 0 && forall i | 0 <= i < |items| :: IsScalar(items[i]) {
          var q := Quote(items[0]);
          var j := Join(Texts(items), q + "," + q);
          assert SetLiteral(items) == Ok("(" + q + j + q + ")");
          SetClauseText(f.items[0].s, operand, q, j);
        }
      } else {
        assert operand in SCALAR_OPERANDS;
      }
    }
  }

  /** One iteration of the filter loop exactly as written: the set list
      goes through the as-written literal, so only lists of strings render. */
  function FilterClauseAsWritten(f: PyValue, cols: Catalog): Result<string> {
    match CheckFilter(f, cols, ListOnly)
    case Some(e) => Err(e)
    case None =>
      var col, operand, values := f.items[0].s, f.items[1].s, f.items[2];
      OperandMapKeys();
      if operand in SCALAR_OPERANDS then Ok(ScalarClause(col, operand, values))
      else
        match SetLiteralAsWritten(values.items)
        case Err(e) => Err(e)
        case Ok(literal) => Ok(SetClause(col, operand, literal))
  }

  /** The intended clause extends the as-written one: they agree wherever
      the as-written loop renders, and the as-written loop refuses with
      TypeError exactly the `in`/`nin` lists that the intended one renders
      although they hold a value that is not a string. */
  lemma FilterClauseAsWrittenAgrees(f: PyValue, cols: Catalog)
    ensures FilterClauseAsWritten(f, cols).Ok? ==> FilterClause(f, cols) == FilterClauseAsWritten(f, cols)
    ensures FilterClause(f, cols).Ok? && FilterClauseAsWritten(f, cols).Err? <==>
              FilterClause(f, cols).Ok? && f.items[1].s in SET_OPERANDS &&
              exists i | 0 <= i < |f.items[2].items| :: !f.items[2].items[i].PyStr?
    ensures FilterClause(f, cols).Ok? && FilterClauseAsWritten(f, cols).Err? ==>
              FilterClauseAsWritten(f, cols).error == TypeError
    ensures FilterClause(f, cols).Err? ==> FilterClauseAsWritten(f, cols) == FilterClause(f, cols)
  {
    if CheckFilter(f, cols, ListOnly) == None {
      OperandMapKeys();
      OperandClassesPartition();
      var operand, values := f.items[1].s, f.items[2];
      if operand in SET_OPERANDS {
        assert operand !in SCALAR_OPERANDS;
        if SetLiteralAsWritten(values.items).Ok? {
          SetLiteralExtendsAsWritten(values.items);
        }
      }
    }
  }

  /** `('a', 'in', [10, 20])` on the catalog `['a']`: refused as written,
      rendered as `AND a IN (10,20) ` by the intended loop. */
  lemma NumericInFilter()
    ensures FilterClauseAsWritten(PyTuple([PyStr("a"), PyStr("in"), PyList([PyInt(10), PyInt(20)])]),
                                  ColumnList(["a"])) == Err(TypeError)
    ensures FilterClause(PyTuple([PyStr("a"), PyStr("in"), PyList([PyInt(10), PyInt(20)])]),
                         ColumnList(["a"])) == Ok("AND a IN (10,20) ")
  {
    var f := PyTuple([PyStr("a"), PyStr("in"), PyList([PyInt(10), PyInt(20)])]);
    var cols := ColumnList(["a"]);
    OperandMapKeys();
    OperandClassesPartition();
    assert WellFormedFilter(f, cols, ListOnly);
    NumericSetLiteral();
    assert "in" !in SCALAR_OPERANDS;
    assert SetClause("a", "in", "(10,20)") == "AND a IN (10,20) ";
  }

  /** Every clause begins with `AND `. */
  lemma ClauseStartsWithAnd(f: PyValue, cols: Catalog)
    requires FilterClause(f, cols).Ok?
    ensures |FilterClause(f, cols).value| >= 4 && FilterClause(f, cols).value[..4] == "AND "
  {
    FilterClauseMeaning(f, cols);
    OperandClassesPartition();
  }

  /** The rendering of each filter, in input order. */
  function Rendered(items: seq<PyValue>, cols: Catalog): (rs: seq<Result<string>>)
    ensures |rs| == |items| && forall i | 0 <= i < |items| :: rs[i] == FilterClause(items[i], cols)
  {
    seq(|items|, i requires 0 <= i < |items| => FilterClause(items[i], cols))
  }

  /** All the clauses, or the first error among the renderings, as the
      loop that appends them stops at the first filter that raises. */
  function Collect(rs: seq<Result<string>>): Result<seq<string>>
    decreases |rs|
  {
    if rs == [] then Ok([])
    else
      match rs[0]
      case Err(e) => Err(e)
      case Ok(c) =>
        match Collect(rs[1..])
        case Err(e) => Err(e)
        case Ok(rest) => Ok([c] + rest)
  }

  /** Collecting succeeds exactly when every rendering does, with the
      clauses in order; otherwise its error is the first failure's. */
  lemma {:induction false} CollectMeaning(rs: seq<Result<string>>)
    ensures Collect(rs).Ok? <==> forall i | 0 <= i < |rs| :: rs[i].Ok?
    ensures Collect(rs).Ok? ==>
              |Collect(rs).value| == |rs| && forall i | 0 <= i < |rs| :: Collect(rs).value[i] == rs[i].value
    ensures Collect(rs).Err? ==>
              exists k | 0 <= k < |rs| :: rs[k] == Err(Collect(rs).error) && forall j | 0 <= j < k :: rs[j].Ok?
    decreases |rs|
  {
    if rs != [] && rs[0].Ok? {
      var tail := rs[1..];
      CollectMeaning(tail);
      assert forall i | 0 < i < |rs| :: rs[i] == tail[i - 1];
      if Collect(rs).Err? {
        var k :| 0 <= k < |tail| && tail[k] == Err(Collect(tail).error) && forall j | 0 <= j < k :: tail[j].Ok?;
        assert rs[k + 1] == Err(Collect(rs).error);
      }
    }
  }

  /** `_filter_data` of the SQL builders as a value: no filters give no
      clauses, a value that is not a non-empty list is refused, and
      otherwise each filter is rendered in turn. */
  function FilterResult(filters: PyValue, cols: Catalog): Result<seq<string>> {
    if filters == PyNone then Ok([])
    else if !filters.PyList? || |filters.items| == 0 then Err(WrongFilterException)
    else Collect(Rendered(filters.items, cols))
  }

  /** No filters give no clauses; a value that is not a non-empty list
      raises WrongFilterException; otherwise there is one clause per filter,
      in input order, or the error of the first filter that fails. */
  lemma FilterResultMeaning(filters: PyValue, cols: Catalog)
    ensures filters == PyNone ==> FilterResult(filters, cols) == Ok([])
    ensures filters != PyNone && !(filters.PyList? && |filters.items| > 0) ==>
              FilterResult(filters, cols) == Err(WrongFilterException)
    ensures filters.PyList? && |filters.items| > 0 ==>
              (FilterResult(filters, cols).Ok? <==> forall i | 0 <= i < |filters.items| :: FilterClause(filters.items[i], cols).Ok?)
    ensures filters.PyList? && FilterResult(filters, cols).Ok? ==>
              |FilterResult(filters, cols).value| == |filters.items| &&
              forall i | 0 <= i < |filters.items| :: FilterResult(filters, cols).value[i] == FilterClause(filters.items[i], cols).value
    ensures filters.PyList? && |filters.items| > 0 && FilterResult(filters, cols).Err? ==>
              exists k | 0 <= k < |filters.items| ::
                FilterClause(filters.items[k], cols) == Err(FilterResult(filters, cols).error) &&
                forall j | 0 <= j < k :: FilterClause(filters.items[j], cols).Ok?
  {
    if filters.PyList? && |filters.items| > 0 {
      CollectMeaning(Rendered(filters.items, cols));
    }
  }

  /** A rendered filter list is empty exactly when no filters were given. */
  lemma NoClausesOnlyWithoutFilters(filters: PyValue, cols: Catalog)
    requires FilterResult(filters, cols).Ok?
    ensures FilterResult(filters, cols).value == [] <==> filters == PyNone
  {
    if filters != PyNone {
      CollectMeaning(Rendered(filters.items, cols));
    }
  }

  /** Every clause of a rendered filter list starts with `AND `. */
  lemma EveryClauseStartsWithAnd(filters: PyValue, cols: Catalog)
    requires FilterResult(filters, cols).Ok?
    ensures forall k | 0 <= k < |FilterResult(filters, cols).value| ::
              |FilterResult(filters, cols).value[k]| >= 4 && FilterResult(filters, cols).value[k][..4] == "AND "
  {
    FilterResultMeaning(filters, cols);
    var cs := FilterResult(filters, cols).value;
    forall k | 0 <= k < |cs| ensures |cs[k]| >= 4 && cs[k][..4] == "AND " {
      ClauseStartsWithAnd(filters.items[k], cols);
    }
  }

  /** The clauses cs followed by those of r, or r's error. */
  function Prefixed(cs: seq<string>, r: Result<seq<string>>): Result<seq<string>> {
    match r
    case Err(e) => Err(e)
    case Ok(rest) => Ok(cs + rest)
  }

  lemma PrefixedTwice(a: seq<string>, b: seq<string>, r: Result<seq<string>>)
    ensures Prefixed(a, Prefixed(b, r)) == Prefixed(a + b, r)
  {
    match r {
      case Err(_) =>
      case Ok(rest) => assert a + (b + rest) == a + b + rest;
    }
  }

  /** Collecting from a rendered filter on is that clause, then the rest. */
  lemma CollectStep(rs: seq<Result<string>>, i: nat)
    requires i < |rs| && rs[i].Ok?
    ensures Collect(rs[i..]) == Prefixed([rs[i].value], Collect(rs[i + 1..]))
  {
    assert rs[i..][0] == rs[i];
    assert rs[i..][1..] == rs[i + 1..];
  }

  /** The SQL builders' `_filter_data`: the checks on the list itself,
      then the loop over its filters. */
  method FilterData(filters: PyValue, cols: Catalog) returns (r: Result<seq<string>>)
    ensures r == FilterResult(filters, cols)
  {
    if filters == PyNone {
      return Ok([]);
    }
    if !filters.PyList? || |filters.items| == 0 {
      return Err(WrongFilterException);
    }
    r := CollectClauses(filters.items, cols);
  }

  /** The loop of `_filter_data`, appending one clause per filter and
      stopping at the first filter that raises. */
  method CollectClauses(items: seq<PyValue>, cols: Catalog) returns (r: Result<seq<string>>)
    ensures r == Collect(Rendered(items, cols))
  {
    ghost var rs := Rendered(items, cols);
    var clauses: seq<string> := [];
    var i := 0;
    assert rs[0..] == rs;
    match Collect(rs) {
      case Err(_) =>
      case Ok(all) => assert [] + all == all;
    }
    while i < |items|
      invariant 0 <= i <= |items|
      invariant Collect(rs) == Prefixed(clauses, Collect(rs[i..]))
    {
      var c := FilterClause(items[i], cols);
      assert rs[i..][0] == c;
      if c.Err? {
        return Err(c.error);
      }
      CollectStep(rs, i);
      PrefixedTwice(clauses, [c.value], Collect(rs[i + 1..]));
      clauses := clauses + [c.value];
      i := i + 1;
    }
    assert clauses + [] == clauses;
    return Ok(clauses);
  }
}
