/**
 * The BigQuery query builder: it keeps the table identifiers and the column
 * catalog (a dict from column name to type), validates dimensions, metrics,
 * the aggregation and the sort direction through its property setters, and
 * glues the SELECT statement together.
 */
module QueryBuilding {
  import opened Python
  import opened Text
  import opened Validation
  import opened Filtering
  import opened Sql
  import opened Statement
  import opened GbqPath

  /** `_glue_query` as written: the statement reads from the project id
      alone. */
  function GluedStatementAsWritten(projectId: string, datasetId: string, tableId: string, cols: map<string, string>,
                                   filters: PyValue, x: string, y: string,
                                   aggregation: Option<string>, sort: Option<string>): Result<string>
  {
    BuildQuery(projectId, filters, ColumnTypes(cols), x, y, aggregation, sort)
  }

  /** `_glue_query` as intended: the statement reads from
      `project.dataset.table`. */
  function GluedStatement(projectId: string, datasetId: string, tableId: string, cols: map<string, string>,
                          filters: PyValue, x: string, y: string,
                          aggregation: Option<string>, sort: Option<string>): Result<string>
  {
    BuildQuery(TablePath(projectId, datasetId, tableId), filters, ColumnTypes(cols), x, y, aggregation, sort)
  }

  /** As written, the table reference after `FROM ` is the bare project id:
      when it holds no dot it is a single name, with neither the dataset nor
      the table in it. */
  lemma AsWrittenNamesOnlyProject(projectId: string, datasetId: string, tableId: string, cols: map<string, string>,
                                   filters: PyValue, x: string, y: string,
                                   aggregation: Option<string>, sort: Option<string>)
    requires '.' !in projectId
    requires GluedStatementAsWritten(projectId, datasetId, tableId, cols, filters, x, y, aggregation, sort).Ok?
    ensures var q := GluedStatementAsWritten(projectId, datasetId, tableId, cols, filters, x, y, aggregation, sort).value;
            var at := 22 + |AggrData(x, y, aggregation).select|;
            |q| >= at + |projectId| && q[at..at + |projectId|] == projectId &&
            Split(q[at..at + |projectId|], '.') == [projectId]
  {
    BuildQueryNamesTable(projectId, filters, ColumnTypes(cols), x, y, aggregation, sort);
    SplitNoSeparator(projectId, '.');
  }

  /** As intended, the table reference after `FROM ` reads back as the
      project, dataset and table ids. */
  lemma GluedStatementNamesTable(projectId: string, datasetId: string, tableId: string, cols: map<string, string>,
                                 filters: PyValue, x: string, y: string,
                                 aggregation: Option<string>, sort: Option<string>)
    requires '.' !in projectId && '.' !in datasetId && '.' !in tableId
    requires GluedStatement(projectId, datasetId, tableId, cols, filters, x, y, aggregation, sort).Ok?
    ensures var q := GluedStatement(projectId, datasetId, tableId, cols, filters, x, y, aggregation, sort).value;
            var path := TablePath(projectId, datasetId, tableId);
            var at := 22 + |AggrData(x, y, aggregation).select|;
            |q| >= at + |path| && q[at..at + |path|] == path &&
            Split(q[at..at + |path|], '.') == [projectId, datasetId, tableId]
  {
    BuildQueryNamesTable(TablePath(projectId, datasetId, tableId), filters, ColumnTypes(cols), x, y, aggregation, sort);
    TablePathRoundTrip(projectId, datasetId, tableId);
  }

  /** The outcomes of the setters `__init__` calls, in its order. */
  function InitChecks(cols: map<string, string>, dimensions: PyValue, metrics: PyValue,
                      aggregation: PyValue, sort: PyValue): seq<Option<Error>>
  {
    [DimensionsError(dimensions, ColumnTypes(cols)), MetricsError(metrics, ColumnTypes(cols)),
     CheckAggregation(aggregation), CheckSort(sort)]
  }

  /** What `__init__` raises: the error of the first setter that fails. */
  function InitError(cols: map<string, string>, dimensions: PyValue, metrics: PyValue,
                     aggregation: PyValue, sort: PyValue): Option<Error>
  {
    FirstError(InitChecks(cols, dimensions, metrics, aggregation, sort))
  }

  /** With the default arguments (no dimensions, no metrics) construction
      always fails, on the dimensions: None is not a list. */
  lemma DefaultsRejected(cols: map<string, string>, aggregation: PyValue, sort: PyValue)
    ensures InitError(cols, PyNone, PyNone, aggregation, sort) == Some(NotAListException)
  {
    DimensionsRejectedInOrder(PyNone, ColumnTypes(cols));
  }

  class QueryBuilder {
    var projectId: string
    var datasetId: string
    var tableId: string
    var cols: map<string, string>
    var dimensions: PyValue
    var metrics: PyValue
    var aggregation: PyValue
    var sort: PyValue
    var filters: PyValue

    /** Every stored field has passed its setter. */
    ghost predicate Valid()
      reads this
    {
      InitError(cols, dimensions, metrics, aggregation, sort) == None
    }

    /** The plain assignments at the start of `__init__`. */
    constructor (projectId: string, datasetId: string, tableId: string, cols: map<string, string>)
      ensures this.projectId == projectId && this.datasetId == datasetId && this.tableId == tableId
      ensures this.cols == cols
      ensures dimensions == PyNone && metrics == PyNone && aggregation == PyNone && sort == PyNone && filters == PyNone
    {
      this.projectId := projectId;
      this.datasetId := datasetId;
      this.tableId := tableId;
      this.cols := cols;
      dimensions := PyNone;
      metrics := PyNone;
      aggregation := PyNone;
      sort := PyNone;
      filters := PyNone;
    }

    /** The setter calls of `__init__`: the first one that raises ends
        construction; after all of them the filters are stored as given. */
    method Init(dimensions: PyValue, metrics: PyValue, aggregation: PyValue, sort: PyValue, filters: PyValue)
      returns (err: Option<Error>)
      modifies this`dimensions, this`metrics, this`aggregation, this`sort, this`filters
      ensures err == InitError(cols, dimensions, metrics, aggregation, sort)
      ensures err == None ==>
                Valid() && this.dimensions == dimensions && this.metrics == metrics &&
                this.aggregation == aggregation && this.sort == sort && this.filters == filters
    {
      err := SetFields(dimensions, metrics, aggregation, sort);
      if err != None {
        return;
      }
      assert InitError(cols, this.dimensions, this.metrics, this.aggregation, this.sort) == None;
      this.filters := filters;
    }

    /** The four setters, in the order `__init__` calls them; the first
        that raises stops the rest. */
    method SetFields(dimensions: PyValue, metrics: PyValue, aggregation: PyValue, sort: PyValue)
      returns (err: Option<Error>)
      modifies this`dimensions, this`metrics, this`aggregation, this`sort
      ensures err == FirstError(InitChecks(cols, dimensions, metrics, aggregation, sort))
      ensures err == None ==>
                this.dimensions == dimensions && this.metrics == metrics &&
                this.aggregation == aggregation && this.sort == sort
    {
      ghost var checks := InitChecks(cols, dimensions, metrics, aggregation, sort);
      err := SetDimensions(dimensions);
      if err != None { FirstErrorIsFirstFailure(checks, 0); return; }
      err := SetMetrics(metrics);
      if err != None { FirstErrorIsFirstFailure(checks, 1); return; }
      err := SetAggregation(aggregation);
      if err != None { FirstErrorIsFirstFailure(checks, 2); return; }
      err := SetSort(sort);
      if err != None { FirstErrorIsFirstFailure(checks, 3); return; }
    }

    /** The aggregation setter: None or an aggregation name is stored, and
        anything else is refused with the old value kept. */
    method SetAggregation(v: PyValue) returns (err: Option<Error>)
      modifies this`aggregation
      ensures err == CheckAggregation(v)
      ensures aggregation == if err == None then v else old(aggregation)
    {
      err := CheckAggregation(v);
      if err == None {
        aggregation := v;
      }
    }

    /** The sort setter: None, `asc` or `desc` is stored. */
    method SetSort(v: PyValue) returns (err: Option<Error>)
      modifies this`sort
      ensures err == CheckSort(v)
      ensures sort == if err == None then v else old(sort)
    {
      err := CheckSort(v);
      if err == None {
        sort := v;
      }
    }

    /** The dimensions setter: a non-empty list of column names is stored
        unchanged. */
    method SetDimensions(v: PyValue) returns (err: Option<Error>)
      modifies this`dimensions
      ensures err == DimensionsError(v, ColumnTypes(cols))
      ensures dimensions == if err == None then v else old(dimensions)
    {
      if !v.PyList? {
        return Some(NotAListException);
      }
      if |v.items| < 1 {
        return Some(EmptyListException);
      }
      err := FirstFieldError(v.items, ColumnTypes(cols));
      if err == None {
        dimensions := v;
      }
    }

    /** The metrics setter: anything whose items are all column names is
        stored unchanged. */
    method SetMetrics(v: PyValue) returns (err: Option<Error>)
      modifies this`metrics
      ensures err == MetricsError(v, ColumnTypes(cols))
      ensures metrics == if err == None then v else old(metrics)
    {
      var items := Iterate(v);
      if items.None? {
        return Some(TypeError);
      }
      err := FirstFieldError(items.value, ColumnTypes(cols));
      if err == None {
        metrics := v;
      }
    }

    /** `_glue_query` for the given x and y, reading from the full table
        reference. */
    method GlueQuery(x: string, y: string) returns (r: Result<string>)
      requires Valid()
      ensures r == GluedStatement(projectId, datasetId, tableId, cols, filters, x, y, TextOf(aggregation), TextOf(sort))
    {
      var clauses := FilterData(filters, ColumnTypes(cols));
      if clauses.Err? {
        return Err(clauses.error);
      }
      var p := AggrData(x, y, TextOf(aggregation));
      r := Ok(Query(p.select, TablePath(projectId, datasetId, tableId), clauses.value, p.groupBy, SortData(y, TextOf(sort))));
    }
  }
}
