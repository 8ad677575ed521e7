/**
 * The whole SELECT statement both SQL builders send: the filter clauses of
 * the filter list, the projection and grouping for x, y and the
 * aggregation, and the ordering for the sort direction, laid out after the
 * table reference.
 */
module Statement {
  import opened Python
  import opened Text
  import opened Validation
  import opened Filtering
  import opened Sql

  /** The statement for the table reference `from`, or the error the
      filter loop raises. */
  function BuildQuery(from: string, filters: PyValue, cols: Catalog, x: string, y: string,
                      aggregation: Option<string>, sort: Option<string>): Result<string>
  {
    match FilterResult(filters, cols)
    case Err(e) => Err(e)
    case Ok(clauses) =>
      var p := AggrData(x, y, aggregation);
      Ok(Query(p.select, from, clauses, p.groupBy, SortData(y, sort)))
  }

  /** The statement is built exactly when the filters render, and
      otherwise fails with the filter loop's error. */
  lemma BuildQueryOutcome(from: string, filters: PyValue, cols: Catalog, x: string, y: string,
                          aggregation: Option<string>, sort: Option<string>)
    ensures BuildQuery(from, filters, cols, x, y, aggregation, sort).Ok? <==> FilterResult(filters, cols).Ok?
    ensures BuildQuery(from, filters, cols, x, y, aggregation, sort).Err? ==>
              BuildQuery(from, filters, cols, x, y, aggregation, sort).error == FilterResult(filters, cols).error
  {
  }

  /** A built statement names `from` right after `FROM `. */
  lemma BuildQueryNamesTable(from: string, filters: PyValue, cols: Catalog, x: string, y: string,
                             aggregation: Option<string>, sort: Option<string>)
    requires BuildQuery(from, filters, cols, x, y, aggregation, sort).Ok?
    ensures var q := BuildQuery(from, filters, cols, x, y, aggregation, sort).value;
            var sel := AggrData(x, y, aggregation).select;
            |q| >= 22 + |sel| + |from| && q[22 + |sel|..22 + |sel| + |from|] == from
  {
    var p := AggrData(x, y, aggregation);
    var clauses := FilterResult(filters, cols).value;
    assert BuildQuery(from, filters, cols, x, y, aggregation, sort).value ==
           Query(p.select, from, clauses, p.groupBy, SortData(y, sort));
    QueryNamesTable(p.select, from, clauses, p.groupBy, SortData(y, sort));
  }

  /** In a built statement the text after `WHERE 1=1` starts with `AND `
      exactly when filters were given: no filters add no condition. */
  lemma ConditionsOnlyFromFilters(from: string, filters: PyValue, cols: Catalog, x: string, y: string,
                                  aggregation: Option<string>, sort: Option<string>)
    requires BuildQuery(from, filters, cols, x, y, aggregation, sort).Ok?
    ensures var q := BuildQuery(from, filters, cols, x, y, aggregation, sort).value;
            var rest := q[|QueryHead(AggrData(x, y, aggregation).select, from)|..];
            (|rest| >= 4 && rest[..4] == "AND ") <==> filters != PyNone
  {
    var clauses := FilterResult(filters, cols).value;
    var p := AggrData(x, y, aggregation);
    var s := SortData(y, sort);
    QueryParts(p.select, from, clauses, p.groupBy, s);
    EveryClauseStartsWithAnd(filters, cols);
    FiltersFollowWhere(p.select, from, clauses, p.groupBy, s);
    NoClausesOnlyWithoutFilters(filters, cols);
  }
}
