/**
 * The old request handler the plot classes were to build on: its property
 * setters check x and y against the data source's columns and check the
 * aggregation and the sort direction. The handler never assigns the column
 * list itself; it reads an attribute its subclass must provide, modelled as
 * a field that is None while no one has set it.
 */
module InputHandling {
  import opened Python
  import opened Validation

  /** The x and y setters: None raises WrongFieldName; otherwise the column
      attribute is read, which raises AttributeError while it is missing,
      and a value not among the columns raises WrongFieldName. */
  function HandlerFieldError(v: PyValue, cols: Option<seq<string>>): (r: Option<Error>)
    ensures v == PyNone ==> r == Some(WrongFieldName)
    ensures v != PyNone && cols.None? ==> r == Some(AttributeError)
    ensures cols.Some? ==> r == CheckField(v, ColumnList(cols.value))
  {
    if v == PyNone then Some(WrongFieldName)
    else if cols.None? then Some(AttributeError)
    else CheckField(v, ColumnList(cols.value))
  }

  /** The setter outcomes in `__init__`'s order: x, y, aggregation, sort. */
  function HandlerChecks(cols: Option<seq<string>>, x: PyValue, y: PyValue, aggregation: PyValue, sort: PyValue)
    : seq<Option<Error>>
  {
    [HandlerFieldError(x, cols), HandlerFieldError(y, cols), CheckAggregation(aggregation), CheckSort(sort)]
  }

  function HandlerInitError(cols: Option<seq<string>>, x: PyValue, y: PyValue, aggregation: PyValue, sort: PyValue)
    : Option<Error>
  {
    FirstError(HandlerChecks(cols, x, y, aggregation, sort))
  }

  /** With the column attribute provided, the handler checks exactly what
      the warehouse plot checks: x and y among the columns, a valid
      aggregation and sort direction. */
  lemma HandlerAcceptsWithColumns(cols: seq<string>, x: PyValue, y: PyValue, aggregation: PyValue, sort: PyValue)
    ensures HandlerInitError(Some(cols), x, y, aggregation, sort) == FirstError(FieldChecks(ColumnList(cols), x, y, aggregation, sort))
    ensures HandlerInitError(Some(cols), x, y, aggregation, sort) == None <==>
              x.PyStr? && x.s in cols && y.PyStr? && y.s in cols &&
              CheckAggregation(aggregation) == None && CheckSort(sort) == None
  {
    assert HandlerChecks(Some(cols), x, y, aggregation, sort) == FieldChecks(ColumnList(cols), x, y, aggregation, sort);
    FieldChecksPass(ColumnList(cols), x, y, aggregation, sort);
  }

  /** Without the column attribute construction always fails: on None for
      x with WrongFieldName, and otherwise with AttributeError. */
  lemma HandlerRejectsWithoutColumns(x: PyValue, y: PyValue, aggregation: PyValue, sort: PyValue)
    ensures HandlerInitError(None, x, y, aggregation, sort) == if x == PyNone then Some(WrongFieldName) else Some(AttributeError)
  {
    var checks := HandlerChecks(None, x, y, aggregation, sort);
    var e := if x == PyNone then Some(WrongFieldName) else Some(AttributeError);
    assert checks[0] == e;
    FirstErrorIsFirstFailure(checks, 0);
  }

  class InputHandler {
    /** The column attribute the setters read; None while it is missing. */
    var cols: Option<seq<string>>
    var x: PyValue
    var y: PyValue
    var aggregation: PyValue
    var sort: PyValue

    /** A handler object before `__init__`, with the column attribute a
        subclass may have set. */
    constructor (cols: Option<seq<string>>)
      ensures this.cols == cols
      ensures x == PyNone && y == PyNone && aggregation == PyNone && sort == PyNone
    {
      this.cols := cols;
      x, y, aggregation, sort := PyNone, PyNone, PyNone, PyNone;
    }

    /** The x setter: the value is stored only when it passes. */
    method SetX(v: PyValue) returns (err: Option<Error>)
      modifies this`x
      ensures err == HandlerFieldError(v, cols)
      ensures x == if err == None then v else old(x)
    {
      err := HandlerFieldError(v, cols);
      if err == None {
        x := v;
      }
    }

    /** The y setter: the value is stored only when it passes. */
    method SetY(v: PyValue) returns (err: Option<Error>)
      modifies this`y
      ensures err == HandlerFieldError(v, cols)
      ensures y == if err == None then v else old(y)
    {
      err := HandlerFieldError(v, cols);
      if err == None {
        y := v;
      }
    }

    /** The aggregation setter. */
    method SetAggregation(v: PyValue) returns (err: Option<Error>)
      modifies this`aggregation
      ensures err == CheckAggregation(v)
      ensures aggregation == if err == None then v else old(aggregation)
    {
      err := CheckAggregation(v);
      if err == None {
        aggregation := v;
      }
    }

    /** The sort setter. */
    method SetSort(v: PyValue) returns (err: Option<Error>)
      modifies this`sort
      ensures err == CheckSort(v)
      ensures sort == if err == None then v else old(sort)
    {
      err := CheckSort(v);
      if err == None {
        sort := v;
      }
    }

    /** `__init__`: the four setters in order; the first that raises ends
        construction. */
    method Init(x: PyValue, y: PyValue, aggregation: PyValue, sort: PyValue) returns (err: Option<Error>)
      modifies this`x, this`y, this`aggregation, this`sort
      ensures err == HandlerInitError(cols, x, y, aggregation, sort)
      ensures err == None ==>
                this.x == x && this.y == y && this.aggregation == aggregation && this.sort == sort
    {
      ghost var checks := HandlerChecks(cols, x, y, aggregation, sort);
      err := SetX(x);
      assert err == checks[0];
      if err != None { FirstErrorIsFirstFailure(checks, 0); return; }
      err := SetY(y);
      assert err == checks[1];
      if err != None { FirstErrorIsFirstFailure(checks, 1); return; }
      err := SetAggregation(aggregation);
      assert err == checks[2];
      if err != None { FirstErrorIsFirstFailure(checks, 2); return; }
      err := SetSort(sort);
      assert err == checks[3];
      if err != None { FirstErrorIsFirstFailure(checks, 3); return; }
    }
  }
}
