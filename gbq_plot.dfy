/**
 * The BigQuery plot: it splits the `project.dataset.table` path into its
 * identifiers, takes the table's column names, validates x, y, the
 * aggregation and the sort direction through its property setters, and
 * builds the SELECT statement it sends to the warehouse.
 */
module BigQueryPlot {
  import opened Python
  import opened Text
  import opened Validation
  import opened Filtering
  import opened Sql
  import opened Statement
  import opened GbqPath

  /** The statement the plot sends for its validated fields. */
  function SentStatement(gbqPath: string, columns: seq<string>, x: string, y: string,
                         aggregation: PyValue, sort: PyValue, filters: PyValue): Result<string>
  {
    BuildQuery(gbqPath, filters, ColumnList(columns), x, y, TextOf(aggregation), TextOf(sort))
  }

  /** What the setters and the query of `__init__` raise, in order: x, y,
      the aggregation and the sort direction, then the filter loop. */
  function ConfigureError(gbqPath: string, columns: seq<string>, x: PyValue, y: PyValue,
                          aggregation: PyValue, sort: PyValue, filters: PyValue): Option<Error>
  {
    var checks := FieldChecks(ColumnList(columns), x, y, aggregation, sort);
    var e := FirstError(checks);
    if e != None then e
    else
      assert checks[0] == None && checks[1] == None;
      match SentStatement(gbqPath, columns, x.s, y.s, aggregation, sort, filters)
      case Err(e) => Some(e)
      case Ok(_) => None
  }

  /** What `__init__` raises: the IndexError of a path with fewer than
      three fields, then the errors of the setters and the query. */
  function PlotInitError(gbqPath: string, columns: seq<string>, x: PyValue, y: PyValue,
                         aggregation: PyValue, sort: PyValue, filters: PyValue): Option<Error>
  {
    if PathIds(gbqPath).None? then Some(IndexError)
    else ConfigureError(gbqPath, columns, x, y, aggregation, sort, filters)
  }

  /** A plot is built exactly when the path has three fields, x and y are
      columns of the table, the aggregation and the sort direction are
      valid, and the filters render; a path with fewer than three fields
      fails first, with IndexError. */
  lemma PlotInitAccepts(gbqPath: string, columns: seq<string>, x: PyValue, y: PyValue,
                        aggregation: PyValue, sort: PyValue, filters: PyValue)
    ensures PlotInitError(gbqPath, columns, x, y, aggregation, sort, filters) == None <==>
              |Split(gbqPath, '.')| >= 3 &&
              x.PyStr? && x.s in columns && y.PyStr? && y.s in columns &&
              CheckAggregation(aggregation) == None && CheckSort(sort) == None &&
              FilterResult(filters, ColumnList(columns)).Ok?
    ensures |Split(gbqPath, '.')| < 3 ==> PlotInitError(gbqPath, columns, x, y, aggregation, sort, filters) == Some(IndexError)
  {
    var cat := ColumnList(columns);
    FieldChecksPass(cat, x, y, aggregation, sort);
    if PathIds(gbqPath).Some? {
      assert PlotInitError(gbqPath, columns, x, y, aggregation, sort, filters) ==
             ConfigureError(gbqPath, columns, x, y, aggregation, sort, filters);
      if FirstError(FieldChecks(cat, x, y, aggregation, sort)) == None {
        BuildQueryOutcome(gbqPath, filters, cat, x.s, y.s, TextOf(aggregation), TextOf(sort));
      }
    }
  }

  class GBQPlot {
    var gbqPath: string
    var projectId: string
    var datasetId: string
    var tableId: string
    var cols: seq<string>
    var x: PyValue
    var y: PyValue
    var aggregation: PyValue
    var sort: PyValue
    var filters: PyValue
    /** The warehouse client, opened for the path's project. */
    var gbq: Option<Client>
    /** The statement handed to the warehouse client. */
    var sentQuery: string

    /** The plot reads from `gbqPath`, holds its first three fields as the
        identifiers, has a client open for its project and knows the
        table's columns. */
    ghost predicate Opened(gbqPath: string, columns: seq<string>)
      reads this`gbqPath, this`projectId, this`datasetId, this`tableId, this`gbq, this`cols
    {
      this.gbqPath == gbqPath && PathIds(gbqPath) == Some(TableIds(projectId, datasetId, tableId))
      && gbq == Some(Client(projectId, DEFAULT_CREDENTIALS)) && cols == columns
    }

    /** The plot holds exactly the given request fields, each of which has
        passed its setter, and has sent the statement they describe. */
    ghost predicate Configured(x: PyValue, y: PyValue, aggregation: PyValue, sort: PyValue, filters: PyValue)
      reads this`x, this`y, this`aggregation, this`sort, this`filters, this`gbqPath, this`cols, this`sentQuery
    {
      this.x == x && this.y == y && this.aggregation == aggregation && this.sort == sort && this.filters == filters
      && FirstError(FieldChecks(ColumnList(cols), x, y, aggregation, sort)) == None
      && x.PyStr? && y.PyStr? && SentStatement(gbqPath, cols, x.s, y.s, aggregation, sort, filters) == Ok(sentQuery)
    }

    /** The plot built by `__init__` from these arguments. */
    ghost predicate Built(gbqPath: string, columns: seq<string>, x: PyValue, y: PyValue,
                          aggregation: PyValue, sort: PyValue, filters: PyValue)
      reads this
    {
      Opened(gbqPath, columns) && Configured(x, y, aggregation, sort, filters)
    }

    /** An object before `__init__` has run. */
    constructor ()
      ensures gbqPath == "" && projectId == "" && datasetId == "" && tableId == "" && cols == []
      ensures x == PyNone && y == PyNone && aggregation == PyNone && sort == PyNone && filters == PyNone
      ensures gbq == None && sentQuery == ""
    {
      gbqPath, projectId, datasetId, tableId, cols := "", "", "", "", [];
      x, y, aggregation, sort, filters := PyNone, PyNone, PyNone, PyNone, PyNone;
      gbq := None;
      sentQuery := "";
    }

    /** `__init__`: split the path, open the client for its project, take
        the table's columns (given here as `columns`), then configure the
        plot. The first step that raises ends
        construction. */
    method Init(gbqPath: string, columns: seq<string>, x: PyValue, y: PyValue,
                aggregation: PyValue, sort: PyValue, filters: PyValue)
      returns (err: Option<Error>)
      modifies this`gbqPath, this`projectId, this`datasetId, this`tableId, this`cols
      modifies this`x, this`y, this`aggregation, this`sort, this`filters, this`gbq, this`sentQuery
      ensures err == PlotInitError(gbqPath, columns, x, y, aggregation, sort, filters)
      ensures err == None ==> Built(gbqPath, columns, x, y, aggregation, sort, filters)
    {
      err := OpenTable(gbqPath, columns);
      if err != None {
        return;
      }
      err := Configure(x, y, aggregation, sort, filters);
      assert Opened(gbqPath, columns);
      assert PlotInitError(gbqPath, columns, x, y, aggregation, sort, filters) ==
             ConfigureError(gbqPath, columns, x, y, aggregation, sort, filters);
    }

    /** The start of `__init__`: the path is stored and split, and fewer
        than three fields raise IndexError; the client is opened for the
        first field and the table's columns are taken. */
    method OpenTable(gbqPath: string, columns: seq<string>) returns (err: Option<Error>)
      modifies this`gbqPath, this`projectId, this`datasetId, this`tableId, this`gbq, this`cols
      ensures err == None <==> PathIds(gbqPath).Some?
      ensures err != None ==> err == Some(IndexError)
      ensures err == None ==> Opened(gbqPath, columns)
    {
      var ids := PathIds(gbqPath);
      if ids.None? {
        return Some(IndexError);
      }
      this.gbqPath := gbqPath;
      projectId, datasetId, tableId := ids.value.project, ids.value.dataset, ids.value.table;
      gbq := Some(Client(projectId, DEFAULT_CREDENTIALS));
      cols := columns;
      err := None;
    }

    /** The rest of `__init__`: the four setters, the filters stored as
        given, and the query sent. */
    method Configure(x: PyValue, y: PyValue, aggregation: PyValue, sort: PyValue, filters: PyValue)
      returns (err: Option<Error>)
      modifies this`x, this`y, this`aggregation, this`sort, this`filters, this`sentQuery
      ensures err == ConfigureError(gbqPath, cols, x, y, aggregation, sort, filters)
      ensures err == None ==> Configured(x, y, aggregation, sort, filters)
    {
      err := SetFields(x, y, aggregation, sort);
      if err != None {
        return;
      }
      ghost var checks := FieldChecks(ColumnList(cols), x, y, aggregation, sort);
      assert checks[0] == None && checks[1] == None;
      var q := SendWith(filters);
      if q.Err? {
        return Some(q.error);
      }
    }

    /** The end of `__init__`: the filters are stored as given and the
        query is built and sent. */
    method SendWith(filters: PyValue) returns (q: Result<string>)
      requires x.PyStr? && y.PyStr?
      modifies this`filters, this`sentQuery
      ensures this.filters == filters
      ensures q == SentStatement(gbqPath, cols, x.s, y.s, aggregation, sort, filters)
      ensures sentQuery == if q.Ok? then q.value else old(sentQuery)
    {
      this.filters := filters;
      q := PrepAndSendQuery();
    }

    /** The four setter calls of `__init__`, in order; the first that
        raises stops the rest. */
    method SetFields(x: PyValue, y: PyValue, aggregation: PyValue, sort: PyValue) returns (err: Option<Error>)
      modifies this`x, this`y, this`aggregation, this`sort
      ensures err == FirstError(FieldChecks(ColumnList(cols), x, y, aggregation, sort))
      ensures err == None ==> this.x == x && this.y == y && this.aggregation == aggregation && this.sort == sort
    {
      ghost var checks := FieldChecks(ColumnList(cols), x, y, aggregation, sort);
      err := SetX(x);
      if err != None { FirstErrorIsFirstFailure(checks, 0); return; }
      err := SetY(y);
      if err != None { FirstErrorIsFirstFailure(checks, 1); return; }
      err := SetAggregation(aggregation);
      if err != None { FirstErrorIsFirstFailure(checks, 2); return; }
      err := SetSort(sort);
      if err != None { FirstErrorIsFirstFailure(checks, 3); return; }
    }

    /** The x setter: None and non-columns raise WrongFieldName. */
    method SetX(v: PyValue) returns (err: Option<Error>)
      modifies this`x
      ensures err == CheckField(v, ColumnList(cols))
      ensures x == if err == None then v else old(x)
    {
      err := CheckField(v, ColumnList(cols));
      if err == None {
        x := v;
      }
    }

    /** The y setter: None and non-columns raise WrongFieldName. */
    method SetY(v: PyValue) returns (err: Option<Error>)
      modifies this`y
      ensures err == CheckField(v, ColumnList(cols))
      ensures y == if err == None then v else old(y)
    {
      err := CheckField(v, ColumnList(cols));
      if err == None {
        y := v;
      }
    }

    /** The aggregation setter: None or an aggregation name is stored. */
    method SetAggregation(v: PyValue) returns (err: Option<Error>)
      modifies this`aggregation
      ensures err == CheckAggregation(v)
      ensures aggregation == if err == None then v else old(aggregation)
    {
      err := CheckAggregation(v);
      if err == None {
        aggregation := v;
      }
    }

    /** The sort setter: None, `asc` or `desc` is stored. */
    method SetSort(v: PyValue) returns (err: Option<Error>)
      modifies this`sort
      ensures err == CheckSort(v)
      ensures sort == if err == None then v else old(sort)
    {
      err := CheckSort(v);
      if err == None {
        sort := v;
      }
    }

    /** `_prep_and_send_query`: render the filters, the projection and the
        ordering, lay out the statement reading from the whole path, and
        hand it to the client. */
    method PrepAndSendQuery() returns (r: Result<string>)
      requires x.PyStr? && y.PyStr?
      modifies this`sentQuery
      ensures r == SentStatement(gbqPath, cols, x.s, y.s, aggregation, sort, filters)
      ensures sentQuery == if r.Ok? then r.value else old(sentQuery)
    {
      var clauses := FilterData(filters, ColumnList(cols));
      if clauses.Err? {
        return Err(clauses.error);
      }
      var p := AggrData(x.s, y.s, TextOf(aggregation));
      var sortBy := SortData(y.s, TextOf(sort));
      var query := Query(p.select, gbqPath, clauses.value, p.groupBy, sortBy);
      sentQuery := query;
      r := Ok(query);
    }
  }

  /** The identifiers a plot keeps are the path's first three fields, and
      the statement it sends reads from the whole path. */
  lemma PlotReadsWholePath(gbqPath: string, columns: seq<string>, x: string, y: string,
                           aggregation: PyValue, sort: PyValue, filters: PyValue)
    requires SentStatement(gbqPath, columns, x, y, aggregation, sort, filters).Ok?
    ensures var q := SentStatement(gbqPath, columns, x, y, aggregation, sort, filters).value;
            var at := 22 + |AggrData(x, y, TextOf(aggregation)).select|;
            |q| >= at + |gbqPath| && q[at..at + |gbqPath|] == gbqPath
  {
    BuildQueryNamesTable(gbqPath, filters, ColumnList(columns), x, y, TextOf(aggregation), TextOf(sort));
  }
}
