# ezlife query and plot core in Dafny

This project models the part of ezlife that checks a plot request and turns
it into something that can be run. A request is a data source, an x column, a
y column, an optional aggregation, an optional sort direction and an optional
list of `(column, operand, values)` filter tuples. The core does three things:

- **SQL builders** (`_QueryBuilder`, `GBQPlot`). They validate the request and
  glue a `SELECT ... FROM ... WHERE 1=1 AND ... GROUP BY ... ORDER BY ...`
  string.
- **pandas plot** (`PandasPlot`). It validates the same request and narrows a
  data frame one filter at a time.
- **Data-source objects** (`GBQData` and the older `DataSource`). They check a
  credentials path, a `project.dataset.table` path, a CSV path or a data frame
  before storing it.

Each Python property setter that raises becomes a function from the value to
an `Option<Error>`, together with a method that stores the value only when this
function gives `None`. Each `__init__` becomes a method. It runs its setters in
the source order and stops at the first error, and its contract ties the
result to `FirstError` of the list of setter outcomes. Pure string building
(filter clauses, projection, ordering, the statement template) is modelled as
functions over `string`. The lemmas state what the strings mean: where the
table name sits, that every condition starts with `AND `, that a set literal
splits back into its items, and that the statement has the conditions only
when filters were given.

The modules follow the repository:

| module | file | models |
|---|---|---|
| `Python` | python.dfy | the Python values the setters receive, the exceptions, `str()` of numbers, the `in` test on lists |
| `Text` | text.dfy | `str.split`, `str.join`, `"".join`, `str.endswith`, `str.upper`, `str.replace` |
| `Utils` | utils.dfy | the operator and aggregation tables of `stats/utils/utils.py` and the constant lists repeated in each class |
| `Validation` | validators.dfy | the aggregation, sort, x/y, dimensions and metrics setters |
| `Filtering` | filters.dfy | the filter loop of the SQL builders (`_filter_data`) |
| `Sql` | sql_text.dfy | `_aggr_data`, `_sort_data` and the statement template |
| `Statement` | statement.dfy | the three parts glued into one statement |
| `GbqPath` | gbq_path.dfy | the `project.dataset.table` regular-expression search and split |
| `QueryBuilding` | query_builder.dfy | `stats/query_builder.py` |
| `BigQueryPlot` | gbq_plot.dfy | `stats/gbq_plot.py` |
| `BigQueryData` | gbq_data.dfy | `stats/gbq_data.py` |
| `DataSources` | data_source.dfy | `old/data_source.py` |
| `InputHandling` | input_handler.dfy | `old/input_handler.py` |
| `PandasPlotting` | pandas_plot.dfy | `stats/pandas_plot.py` |

**External systems become parameters.**

- The file system is a set `files` of existing paths.
- The warehouse is a set `tables` of existing `project.dataset.table` paths.
  A client looks a table up under its own project.
- The table schema the plot downloads is a `columns` parameter.
- The statement the plot "sends" is recorded in a `sentQuery` field.
- pandas' element comparison (`Series.eq`, `Series.gt`, ...) is a `compare`
  parameter. `isin` is modelled as "some item compares `eq`".

**Behaviour of the code worth noting.**

- Aggregation is optional everywhere. A missing aggregation drops the
  `GROUP BY`.
- Sort is a direction string (`asc` or `desc`). The statement orders by y in
  that direction.
- The aggregate is aliased as y itself (`agg(y) AS y`).
- The statement has no `LIMIT` clause, and the table reference is written
  without back-quotes. The plot writes its path as given. The query builder
  writes only the project id (see Findings).
- A filter value is quoted according to its runtime type. For `in`/`nin` this
  is the type of the first item.
- The plot classes check columns against a list of names. The query builder
  checks them against a name-to-type dictionary.

## Model

| member | source | states |
|---|---|---|
| Utils.OperandMapKeys | stats/utils/utils.py:2-9 | the operator table has exactly the eight operator names as keys, all distinct |
| Utils.OperandSymbols | stats/utils/utils.py:2-9 | `in` renders as `IN`, `nin` as `NOT IN`, and no two operators share a symbol |
| Utils.OperandClassesPartition | stats/query_builder.py:139-160 | every operator is either a set operator (`in`, `nin`) or a scalar one, never both, and both classes lie within the operator names |
| Utils.PlotTypesClosed | stats/utils/utils.py:34 | the plot types are exactly bar, barh, boxplot and scatter |
| Utils.WindowAggregationsRegistered | stats/utils/utils.py:11-32 | every window aggregation has a template |
| Utils.TemplatePlaceholders | stats/utils/utils.py:11-32 | a template has the window placeholder exactly when its aggregation is a window aggregation; it has the metric placeholder exactly once for every aggregation except stdev and var |
| Utils.TemplateSubstitution | stats/utils/utils.py:11-27 | substituting a column into any template other than stdev and var puts the column at the one placeholder and leaves the rest unchanged |
| Utils.DeviationTemplatesIgnoreMetric | stats/utils/utils.py:28-29 | as written, substituting a column into the stdev and var templates leaves them unchanged |
| Utils.FixedTemplatePlaceholders | stats/utils/utils.py:11-32 | with the placeholder spelled correctly every template has the metric placeholder exactly once, the window placeholder exactly for window aggregations, and substitutes its column once |
| Python.Iterate | stats/query_builder.py:98 | a `for` loop over a list, tuple or set yields its items, over a string its characters, over a dict its keys and over a data frame its column labels; over None, a number or a bool it raises TypeError |
| Python.Hashable | stats/query_builder.py:92 | `hash()` fails on lists, sets, dicts and data frames and on tuples holding one of them; meaning in Validation.ColumnIn |
| Python.NameListContains | stats/query_builder.py:67 | `in` on a list of names holds exactly for a string equal to one of the names |
| Python.DecimalRoundTrip | stats/gbq_plot.py:170 | `str()` of a natural number is a non-empty digit string that reads back as the same number |
| Python.NonStringTextHasNoQuote | stats/gbq_plot.py:166-170 | `str()` of a non-string scalar is non-empty and contains no single quote |
| Text.Split | stats/gbq_plot.py:36 | `split` returns at least one field |
| Text.SplitFieldCount | stats/gbq_plot.py:36 | `split` returns one field more than the text has separators |
| Text.JoinSplit | stats/gbq_plot.py:36 | joining the fields of a split with the separator gives back the text |
| Text.SplitJoin | stats/gbq_plot.py:36-39 | splitting a separator-join of separator-free parts gives back the parts |
| Text.EndsWithIff | stats/gbq_data.py:40 | `endswith` holds exactly when the text is some prefix followed by the suffix |
| Text.UpperOfDirections | stats/gbq_plot.py:198 | the two sort directions upper-case to `ASC` and `DESC` |
| Validation.ColumnIn | stats/query_builder.py:92 | `in` on the column catalog holds exactly for a listed name; on a dictionary an unhashable value raises TypeError |
| Validation.CheckAggregation | stats/query_builder.py:64-69 | the aggregation passes exactly when it is None or one of the aggregation names; otherwise WrongAggregationException |
| Validation.CheckSort | stats/query_builder.py:71-76 | the sort passes exactly when it is None, `asc` or `desc`; otherwise WrongSortException |
| Validation.CheckField | stats/gbq_plot.py:84-103 | x or y passes exactly when it is a column name; None raises WrongFieldName |
| Validation.FieldsErrorIsFirstFailure | stats/query_builder.py:87-93 | a list of names passes exactly when every name passes, and otherwise fails with the error of the first name that does not |
| Validation.FirstFieldError | stats/query_builder.py:87-93 | the loop returns the list's verdict |
| Validation.DimensionsError | stats/query_builder.py:78-94 | the dimensions setter: the list check, the emptiness check, then each name in order against the dictionary; meaning in Validation.DimensionsRejectedInOrder |
| Validation.DimensionsRejectedInOrder | stats/query_builder.py:78-94 | dimensions pass exactly when they are a non-empty list of column names; a non-list raises NotAListException, an empty list EmptyListException, and otherwise the first bad name's error |
| Validation.MetricsError | stats/query_builder.py:96-105 | the metrics setter: iterate, then check each item in order against the dictionary; meaning in Validation.MetricsAccepted |
| Validation.MetricsAccepted | stats/query_builder.py:96-105 | metrics pass exactly when they are iterable and every item is a column name; None raises TypeError |
| Validation.StringMetricsAreCharacters | stats/query_builder.py:98 | a string given as metrics is checked character by character |
| Validation.FieldChecksPass | stats/gbq_plot.py:43-47 | the x, y, aggregation and sort setters all pass exactly when x and y are column names and the aggregation and sort are valid |
| Validation.FirstError | stats/query_builder.py:41-44 | setters run in order: the result is None exactly when every check passes, and otherwise it is the error of a check whose predecessors all passed |
| Validation.FirstErrorIsFirstFailure | stats/query_builder.py:41-44 | the first failing check decides the error |
| Filtering.CheckFilter | stats/query_builder.py:122-145 | a filter passes exactly when it is a 3-tuple with a known column, a known operator and a value of the operator's shape; otherwise WrongFilterException, or TypeError on an unhashable column against a dictionary |
| Filtering.ScalarQuoting | stats/query_builder.py:149-153 | a scalar value is quoted exactly when it is a string, and otherwise its text holds no quote |
| Filtering.ScalarClause | stats/query_builder.py:150-153 | the clause of a comparison filter, `AND col OP value ` with the value quoted when it is a string; meaning in Filtering.FilterClauseMeaning and Filtering.ScalarQuoting |
| Filtering.SetLiteralAsWritten | stats/query_builder.py:156-159 | the `in`/`nin` literal as written: IndexError on an empty list, TypeError unless every item is a string; meaning in Filtering.NumericSetLiteral |
| Filtering.SetLiteral | stats/query_builder.py:156-159 | the corrected `in`/`nin` literal, each scalar by its `str()` text; meaning in Filtering.SetLiteralRoundTrip |
| Filtering.SetClause | stats/query_builder.py:160 | the clause of an `in`/`nin` filter around its literal; spelled out by Filtering.SetClauseText |
| Filtering.SetClauseText | stats/query_builder.py:160 | the set clause is `AND col OP (literal) ` |
| Filtering.NumericSetLiteral | stats/query_builder.py:157-159 | as written, a list of numbers for `in` raises TypeError; the corrected literal is `(10,20)` |
| Filtering.SetLiteralExtendsAsWritten | stats/gbq_plot.py:174-176 | wherever the written literal succeeds, the corrected one gives the same text |
| Filtering.SetLiteralRoundTrip | stats/gbq_plot.py:174-176 | the set literal is parenthesised, and splitting its inside at the commas gives back every item's text, each wrapped in the quote |
| Filtering.FilterClauseMeaning | stats/gbq_plot.py:139-177 | with the corrected set literal, a clause renders exactly for a well-formed filter whose set value is a non-empty list of scalars; a well-formed filter fails only on a set value, with IndexError or TypeError; the rendered clause is `AND col OP value` or `AND col OP (v1,v2,...)` |
| Filtering.FilterClause | stats/gbq_plot.py:139-177 | one iteration of the builders' filter loop with the corrected set literal: the checks, then the clause (meaning in FilterClauseMeaning) |
| Filtering.FilterClauseAsWritten | stats/query_builder.py:122-162 | one iteration of the filter loop as written, where an `in`/`nin` list renders only when all its items are strings |
| Filtering.FilterClauseAsWrittenAgrees | stats/query_builder.py:156-160 | wherever the as-written iteration renders, the corrected one renders the same clause; they differ exactly on a well-formed `in`/`nin` filter whose list holds a non-string scalar, which as written raises TypeError |
| Filtering.NumericInFilter | stats/gbq_plot.py:173-177 | `('a', 'in', [10, 20])` raises TypeError as written and renders as `AND a IN (10,20) ` when corrected |
| Filtering.ClauseStartsWithAnd | stats/gbq_plot.py:170-177 | every rendered clause starts with `AND ` |
| Filtering.CollectMeaning | stats/gbq_plot.py:138-180 | the loop succeeds exactly when every clause renders, with one clause per filter in order, and otherwise fails with the first failure |
| Filtering.FilterResultMeaning | stats/query_builder.py:115-165 | None gives no clauses; a non-list or empty list raises WrongFilterException; a non-empty list gives one clause per filter in order, or the first filter's failure |
| Filtering.FilterResult | stats/query_builder.py:115-165 | `_filter_data`: None gives no clauses, a non-list or empty list raises, otherwise the loop over the filters; meaning in Filtering.FilterResultMeaning |
| Filtering.NoClausesOnlyWithoutFilters | stats/query_builder.py:115-165 | a successful loop returns no clauses exactly when no filters were given |
| Filtering.EveryClauseStartsWithAnd | stats/gbq_plot.py:139-180 | every clause of a successful loop starts with `AND ` |
| Filtering.FilterData | stats/query_builder.py:110-165 | the loop returns the filter list's verdict |
| Filtering.CollectClauses | stats/query_builder.py:122-163 | the loop appends one clause per filter in order and stops at the first filter that raises, with its error |
| Sql.AggrData | stats/gbq_plot.py:184-193 | there is a `GROUP BY x` exactly when an aggregation is given; the select list starts with x and ends with y |
| Sql.AggregateIsAliased | stats/gbq_plot.py:187-192 | with an aggregation y is selected as `agg(y) AS y`, and otherwise plainly |
| Sql.SortData | stats/gbq_plot.py:195-201 | there is an ordering exactly when a sort is given, and it is `ORDER BY y` |
| Sql.SortKeyword | stats/gbq_plot.py:195-198 | `asc` orders `ASC`, `desc` orders `DESC` |
| Sql.SortTargetIsOutputColumn | stats/gbq_plot.py:184-201 | the ordering names the last column of the select list, whether or not it was aggregated |
| Sql.QueryParts | stats/gbq_plot.py:110-116 | the statement is its head, the clauses joined without separator, and its tail |
| Sql.Query | stats/gbq_plot.py:112-116 | the statement template around the select list, the table, the joined clauses, the grouping and the ordering; meaning in Sql.QueryParts and Sql.QueryNamesTable |
| Sql.QueryNamesTable | stats/gbq_plot.py:112-113 | the statement starts with `SELECT` and the select list, and names the table right after `FROM ` |
| Sql.QueryHasWhere | stats/gbq_plot.py:114 | the line after the table is `WHERE 1=1` |
| Sql.ClauseAt | stats/gbq_plot.py:110-115 | each clause appears after the ones before it, in list order |
| Sql.QueryEndsWithTail | stats/gbq_plot.py:116 | the statement ends with the grouping and the ordering |
| Sql.FiltersFollowWhere | stats/gbq_plot.py:114-115 | when every clause starts with `AND `, the text after `WHERE 1=1` starts with `AND ` exactly when there is a clause |
| Statement.BuildQueryOutcome | stats/gbq_plot.py:105-116 | a statement is built exactly when the filters render, and otherwise the filter loop's error is raised |
| Statement.BuildQuery | stats/gbq_plot.py:105-116 | the filter loop, the projection and the ordering glued into the template; meaning in Statement.BuildQueryOutcome and Statement.BuildQueryNamesTable |
| Statement.BuildQueryNamesTable | stats/gbq_plot.py:112-113 | a built statement names its table reference after `FROM ` |
| Statement.ConditionsOnlyFromFilters | stats/query_builder.py:189-200 | a built statement has a condition beyond `1=1` exactly when filters were given |
| GbqPath.SearchIff | stats/gbq_data.py:57 | the decision procedure agrees with the unanchored search for three runs of path characters joined by two dots |
| GbqPath.Search | stats/gbq_data.py:57 | the unanchored search: some window of the path is three runs of path characters joined by two dots; decided by GbqPath.SearchIff |
| GbqPath.AcceptedPathHasThreeFields | stats/gbq_data.py:57-63 | a path the search accepts splits into at least three fields |
| GbqPath.PathIds | stats/gbq_plot.py:36-39 | taking the first three split fields succeeds exactly when there are at least three, and the fields hold no dot |
| GbqPath.TablePathRoundTrip | stats/gbq_data.py:60-63 | splitting a dotted path made of three dot-free ids gives the ids back |
| GbqPath.PathIdsRoundTrip | stats/gbq_plot.py:36-39 | the ids read from a path made of three ids are those ids |
| GbqPath.AcceptedPathHasIds | stats/gbq_data.py:57-63 | every accepted path yields three ids, so the indexing after the search cannot fail |
| GbqPath.LeadingFieldsAreIds | stats/gbq_data.py:60-63 | the ids are the first two fields and the start of the rest, whatever follows |
| GbqPath.SearchIsNotAnchored | stats/gbq_data.py:57-63 | a path starting with a character outside the class is still accepted, and that character becomes part of the project id |
| GbqPath.ExtraFieldsIgnored | stats/gbq_data.py:57-63 | a path with a fourth field is accepted, and the fourth field is ignored |
| GbqPath.TwoFieldsRefused | stats/gbq_data.py:57-58 | a two-field path is refused |
| QueryBuilding.AsWrittenNamesOnlyProject | stats/query_builder.py:196-197 | as written, the table reference in the statement is the project id alone, a single field |
| QueryBuilding.GluedStatementAsWritten | stats/query_builder.py:189-200 | `_glue_query` as written, reading from the project id alone; meaning in QueryBuilding.AsWrittenNamesOnlyProject |
| QueryBuilding.GluedStatement | stats/query_builder.py:189-200 | `_glue_query` corrected, reading from `project.dataset.table`; meaning in QueryBuilding.GluedStatementNamesTable |
| QueryBuilding.GluedStatementNamesTable | stats/query_builder.py:189-200 | the corrected statement names `project.dataset.table`, which splits back into the three ids |
| QueryBuilding.DefaultsRejected | stats/query_builder.py:78-82 | with the default (None) dimensions construction raises NotAListException |
| QueryBuilding.InitError | stats/query_builder.py:41-44 | the first error of the dimensions, metrics, aggregation and sort setters in order; its use is stated by QueryBuilding.QueryBuilder.Init |
| QueryBuilding.QueryBuilder.constructor | stats/query_builder.py:36-39 | the ids and the catalog are stored as given |
| QueryBuilding.QueryBuilder.Init | stats/query_builder.py:41-46 | construction raises the first failing setter's error, and on success stores every argument |
| QueryBuilding.QueryBuilder.SetFields | stats/query_builder.py:41-44 | the dimensions, metrics, aggregation and sort setters run in order |
| QueryBuilding.QueryBuilder.SetAggregation | stats/query_builder.py:64-69 | the aggregation is stored exactly when it passes |
| QueryBuilding.QueryBuilder.SetSort | stats/query_builder.py:71-76 | the sort is stored exactly when it passes |
| QueryBuilding.QueryBuilder.SetDimensions | stats/query_builder.py:78-94 | the dimensions are stored exactly when they pass |
| QueryBuilding.QueryBuilder.SetMetrics | stats/query_builder.py:96-105 | the metrics are stored exactly when they pass |
| QueryBuilding.QueryBuilder.GlueQuery | stats/query_builder.py:189-204 | returns the corrected statement for the stored ids, catalog, filters, aggregation and sort |
| BigQueryPlot.PlotInitAccepts | stats/gbq_plot.py:26-51 | construction succeeds exactly when the path has three fields, x and y are columns, the aggregation and sort are valid and the filters render with the corrected set literal; a short path raises IndexError |
| BigQueryPlot.PlotInitError | stats/gbq_plot.py:26-51 | the path split, then the setters, then the statement; meaning in BigQueryPlot.PlotInitAccepts |
| BigQueryPlot.ConfigureError | stats/gbq_plot.py:43-51 | the x, y, aggregation and sort setters in order, then the filter loop of the statement; its use is stated by BigQueryPlot.GBQPlot.Configure |
| BigQueryPlot.SentStatement | stats/gbq_plot.py:105-116 | the statement for the plot's path and request; meaning in BigQueryPlot.PlotReadsWholePath |
| BigQueryPlot.PlotReadsWholePath | stats/gbq_plot.py:112-113 | the sent statement names the whole path after `FROM ` |
| BigQueryPlot.GBQPlot.Init | stats/gbq_plot.py:26-51 | construction raises the first error (filters checked with the corrected set literal) and, on success, leaves the plot opened on the path, configured with the arguments and holding the sent statement |
| BigQueryPlot.GBQPlot.OpenTable | stats/gbq_plot.py:35-41 | opening succeeds exactly when the path has three fields (otherwise IndexError) and sets the ids, the client and the columns |
| BigQueryPlot.GBQPlot.Configure | stats/gbq_plot.py:43-51 | the setters run in order, then the statement is built and sent |
| BigQueryPlot.GBQPlot.SendWith | stats/gbq_plot.py:48-51 | stores the filters as given, then returns and records the statement for the stored request |
| BigQueryPlot.GBQPlot.SetFields | stats/gbq_plot.py:43-47 | the x, y, aggregation and sort setters run in order |
| BigQueryPlot.GBQPlot.SetX | stats/gbq_plot.py:84-93 | x is stored exactly when it is a column |
| BigQueryPlot.GBQPlot.SetY | stats/gbq_plot.py:95-103 | y is stored exactly when it is a column |
| BigQueryPlot.GBQPlot.SetAggregation | stats/gbq_plot.py:70-75 | the aggregation is stored exactly when it passes |
| BigQueryPlot.GBQPlot.SetSort | stats/gbq_plot.py:77-82 | the sort is stored exactly when it passes |
| BigQueryPlot.GBQPlot.PrepAndSendQuery | stats/gbq_plot.py:105-121 | returns the statement for the stored request and records it as sent |
| BigQueryData.SaPathError | stats/gbq_data.py:29-43 | the credentials path passes exactly when it is an existing file ending in `.json`; otherwise WrongServiceAccountPathException |
| BigQueryData.GbqPathError | stats/gbq_data.py:49-70 | None or a path the search rejects raises GBQWrongPathPatternException; otherwise the table named by the first three fields must exist for the client of its project |
| BigQueryData.GbqPathAccepted | stats/gbq_data.py:57-68 | a path passes exactly when the search accepts it and its table exists |
| BigQueryData.PlainPathAccepted | stats/gbq_data.py:57-68 | a well-formed three-part path passes exactly when that table exists |
| BigQueryData.CredentialsCheckedFirst | stats/gbq_data.py:15-17 | a bad credentials path is reported before the table path is looked at |
| BigQueryData.GbqDataInitError | stats/gbq_data.py:15-17 | the credentials setter, then the path setter; meaning in BigQueryData.CredentialsCheckedFirst and BigQueryData.ConstructionCanSucceed |
| BigQueryData.ConstructionCanSucceed | stats/gbq_data.py:8-23 | an existing `key.json` and an existing table `p.d.t` are accepted |
| BigQueryData.GBQData.SetSaPath | stats/gbq_data.py:29-43 | the credentials path is stored exactly when it passes |
| BigQueryData.GBQData.SetGbqPath | stats/gbq_data.py:49-78 | an accepted pattern sets the ids and the client before the table is checked; the path is stored only after every check |
| BigQueryData.GBQData.InitAsWritten | stats/gbq_data.py:8-23 | as written, a successful construction ends with the ids and the client reset to None |
| BigQueryData.GBQData.Init | stats/gbq_data.py:8-19 | corrected: a successful construction keeps the ids of the path's first three fields and the client for its project with the stored credentials |
| DataSources.GivenCount | old/data_source.py:105-106 | the count of given sources is at most the number of arguments |
| DataSources.NoneGiven | old/data_source.py:105-107 | the count is zero exactly when every argument is None |
| DataSources.OneGiven | old/data_source.py:105-107 | the count is one exactly when a single argument is given |
| DataSources.ExactlyOneSource | old/data_source.py:100-109 | the source count passes exactly when one of the CSV path, the warehouse path and the data frame is given |
| DataSources.SourcesError | old/data_source.py:100-109 | the source count check; meaning in DataSources.ExactlyOneSource |
| DataSources.CsvPathError | old/data_source.py:49-59 | None passes; a path that is not an existing file raises CSVWrongPathException, one that does not end in `.csv` CSVWrongSuffixException |
| DataSources.BigqueryPathError | old/data_source.py:61-79 | None passes; a path the search rejects raises GBQWrongPathPatternException; otherwise the named table must exist, or GBQTableNotExist |
| DataSources.DataFrameError | old/data_source.py:82-90 | the data frame passes exactly when it is None or a data frame; otherwise NotPandasDFException |
| DataSources.CountCheckedFirst | old/data_source.py:22-30 | a wrong number of sources is reported before any setter runs |
| DataSources.DataSourceInitError | old/data_source.py:22-30 | the count check, then the three setters in order; meaning in DataSources.CountCheckedFirst and DataSources.WarehouseSourceAccepted |
| DataSources.WarehouseSourceAccepted | old/data_source.py:61-79 | a warehouse path to an existing table is accepted alone, and its client uses the hard-coded credentials |
| DataSources.DataSource.ClientFor | old/data_source.py:93-98 | an accepted path gets a client with the hard-coded credentials |
| DataSources.DataSource.SetCsvLocalPath | old/data_source.py:49-59 | the CSV path is stored exactly when it passes |
| DataSources.DataSource.SetBigqueryPath | old/data_source.py:61-79 | an accepted pattern sets up the client before the table is checked; the path is stored only after every check |
| DataSources.DataSource.SetDataFrame | old/data_source.py:82-90 | the data frame is stored exactly when it passes |
| DataSources.DataSource.SetSources | old/data_source.py:22-30 | the count is checked, then the three setters run in order |
| DataSources.DataSource.InitAsWritten | old/data_source.py:8-36 | as written, a successful construction ends with the client reset to None |
| DataSources.DataSource.Init | old/data_source.py:8-36 | corrected: a warehouse source keeps the client its setter set up |
| InputHandling.HandlerFieldError | old/input_handler.py:69-88 | None raises WrongFieldName; a missing column attribute raises AttributeError; otherwise x or y passes exactly when it is a column |
| InputHandling.HandlerAcceptsWithColumns | old/input_handler.py:32-35 | with the column attribute present the handler checks what the plot does: it passes exactly when x and y are columns and the aggregation and sort are valid |
| InputHandling.HandlerRejectsWithoutColumns | old/input_handler.py:69-78 | without the column attribute construction always fails: WrongFieldName when x is None, otherwise AttributeError |
| InputHandling.HandlerInitError | old/input_handler.py:32-35 | the x, y, aggregation and sort setters in order; meaning in InputHandling.HandlerAcceptsWithColumns and InputHandling.HandlerRejectsWithoutColumns |
| InputHandling.InputHandler.SetX | old/input_handler.py:69-78 | x is stored exactly when it passes |
| InputHandling.InputHandler.SetY | old/input_handler.py:80-88 | y is stored exactly when it passes |
| InputHandling.InputHandler.SetAggregation | old/input_handler.py:55-60 | the aggregation is stored exactly when it passes |
| InputHandling.InputHandler.SetSort | old/input_handler.py:62-67 | the sort is stored exactly when it passes |
| InputHandling.InputHandler.Init | old/input_handler.py:32-35 | construction raises the first failing setter's error, and on success stores every argument |
| PandasPlotting.IsIn | stats/pandas_plot.py:134 | `isin` holds exactly when the cell compares equal to some item |
| PandasPlotting.Keep | stats/pandas_plot.py:129-136 | whether one filter keeps a row: `isin` for `in`, its negation for `nin`, the operator's comparison otherwise; meaning in PandasPlotting.Select |
| PandasPlotting.Select | stats/pandas_plot.py:129-136 | one filter keeps exactly the rows whose cell satisfies it (`isin` for `in`, its negation for `nin`, the comparison otherwise) and adds none |
| PandasPlotting.SelectCounts | stats/pandas_plot.py:129-136 | one filter keeps every copy of a row it keeps and no copy of a row it drops, so duplicate rows are neither merged nor lost |
| PandasPlotting.SelectIsSubsequence | stats/pandas_plot.py:129-136 | a filter keeps its rows in their original order |
| PandasPlotting.SelectCommutes | stats/pandas_plot.py:129-136 | the order of two filters does not matter |
| PandasPlotting.SelectIdempotent | stats/pandas_plot.py:129-136 | applying a filter twice is applying it once |
| PandasPlotting.SelectAllMeaning | stats/pandas_plot.py:103-136 | after the loop a row remains exactly when it was in the frame and every filter keeps it |
| PandasPlotting.SelectAllIsSubsequence | stats/pandas_plot.py:103-136 | after the loop the rows are a subsequence of the frame's rows, never more |
| PandasPlotting.SelectAll | stats/pandas_plot.py:103-136 | the frame narrowed by each filter in turn; meaning in PandasPlotting.SelectAllMeaning |
| PandasPlotting.FirstBad | stats/pandas_plot.py:103-125 | every filter before the returned index is well formed, and the one at it (if any) is not |
| PandasPlotting.PandasFilterOutcome | stats/pandas_plot.py:97-125 | the filter loop raises only WrongFilterException; it passes exactly for None or a non-empty list of well-formed filters, and then applies every filter |
| PandasPlotting.PandasFilterError | stats/pandas_plot.py:97-125 | the checks of the pandas filter loop; meaning in PandasPlotting.PandasFilterOutcome |
| PandasPlotting.PandasInitAccepts | stats/pandas_plot.py:21-31 | construction succeeds exactly when x and y are columns of the frame, the aggregation and sort are valid and every filter is well formed |
| PandasPlotting.PandasInitError | stats/pandas_plot.py:21-31 | the x, y, aggregation and sort setters, then the filter checks; meaning in PandasPlotting.PandasInitAccepts |
| PandasPlotting.PandasPlot.SetX | stats/pandas_plot.py:63-71 | x is stored exactly when it is a column of the frame |
| PandasPlotting.PandasPlot.SetY | stats/pandas_plot.py:73-81 | y is stored exactly when it is a column of the frame |
| PandasPlotting.PandasPlot.SetAggregation | stats/pandas_plot.py:49-54 | the aggregation is stored exactly when it passes |
| PandasPlotting.PandasPlot.SetSort | stats/pandas_plot.py:56-61 | the sort is stored exactly when it passes |
| PandasPlotting.PandasPlot.SetFields | stats/pandas_plot.py:23-27 | the x, y, aggregation and sort setters run in order |
| PandasPlotting.PandasPlot.FilterData | stats/pandas_plot.py:91-137 | returns the filter list's verdict, and the working frame ends as the rows every filter before the first bad one keeps |
| PandasPlotting.PandasPlot.Load | stats/pandas_plot.py:21-22 | the frame and the working frame are both the given frame |
| PandasPlotting.PandasPlot.PrepData | stats/pandas_plot.py:28-31 | stores the filters, then filters the working frame |
| PandasPlotting.PandasPlot.Init | stats/pandas_plot.py:12-31 | construction raises the first error and, on success, stores every argument and narrows the working frame by every filter |

## Left out

- Logging.
  - The `logger` parameter and every `logger.info` call are left out, because they have no effect on the results.
- External calls become parameters or records.
  - `os.path.isfile` is a set of existing files.
  - `check_if_table_exists` is a set of existing table paths.
  - `get_table_schema` (stats/gbq_plot.py:203-206) is a column-list parameter.
  - `get_data` is the recorded `sentQuery`.
  - `gbq.py`, `utils/gbq.py` and the BigQuery client are not part of this model.
- pandas comparison semantics are the `compare` parameter.
  - `getattr(series, operand)(values)` and `isin` depend on pandas and on dtypes. These are outside the model.
- pandas aggregation and sort (stats/pandas_plot.py:140-152) are left out.
  - `groupby(...).agg(...)` and `sort_values` need a model of pandas group-by and of value ordering.
  - The in-place sort mutates the caller's frame when no filter or aggregation has replaced `df2`. Aliasing between `df` and `df2` is therefore not modelled: the two are separate fields.
- Plotting (`bar`, matplotlib, `stats/plots.py`) and `old/stats.py` are outside the query core.
- `np.int`/`np.float` in the scalar check (stats/query_builder.py:143, stats/gbq_plot.py:160, stats/pandas_plot.py:123) are left out.
  - The model accepts int, float and str.
  - `np` is never imported in stats/query_builder.py, so that file raises NameError there. stats/gbq_plot.py and stats/pandas_plot.py import it, so they fail only on newer numpy, which lacks these names. Either way the failure comes at the scalar-type check of the first filter that reaches it, after that filter's list, emptiness, tuple, length, column, operand and `in`/`nin` shape checks. It happens for `in`/`nin` filters too, because `&` evaluates both sides. Neither failure is modelled.
- QueryBuilding.QueryBuilder.GlueQuery takes x and y as parameters.
  - `_aggr_data` and `_sort_data` read `self.x` and `self.y`, which `_QueryBuilder` never sets. As written, gluing raises AttributeError.
- Floats appear as their decimal text (`PyFloat` holds the text `str()` would print). Python's float formatting is not modelled.
- Only string paths are modelled. A non-string credentials, CSV or warehouse path (a TypeError inside `os.path.isfile` or `re.search`) is not modelled.
- The aggregation templates of stats/utils/utils.py are only stated as a registry. None of the core classes substitutes them: they emit `{aggregation}({y})` directly.
- `PLOT_TYPES` is never checked by the core; only its contents are stated.
- The constant lists repeated in each class (`AGGR_TYPES`, `OPERAND_TYPES`, `OPERAND_MAP`) are equal in every file and are defined once.
- `DataSource.dataSourceType` is only ever set to None (old/data_source.py:32); nothing reads it.
- Exception messages (the `enumerate` index of the filter loops appears only in them) are not modelled; each exception is its class alone.
- Filtering.FilterClause: renders `in`/`nin` lists with the corrected set literal, so a list holding numbers or booleans renders where stats/gbq_plot.py:176 and stats/query_builder.py:159 raise TypeError; Filtering.FilterClauseAsWritten is the loop as written and Filtering.FilterClauseAsWrittenAgrees states where the two differ.
- Filtering.FilterClauseMeaning: states the corrected rendering, so it admits `in`/`nin` lists of non-string scalars that the code as written refuses with TypeError.
- Filtering.FilterResultMeaning: goes through the corrected set literal, with the same difference.
- Statement.BuildQueryOutcome: goes through the corrected set literal, with the same difference.
- QueryBuilding.QueryBuilder.GlueQuery: goes through the corrected set literal, with the same difference.
- BigQueryPlot.PlotInitAccepts: construction is stated with the corrected set literal, so filters with numeric `in`/`nin` lists are accepted where the code as written raises TypeError.
- BigQueryPlot.GBQPlot.Init: builds the statement with the corrected set literal, with the same difference.
- Python.Iterate: models iteration only for lists, tuples, sets, strings, dicts (their keys) and data frames (their column labels); `PyObject` stands for any other object, which is taken as not iterable.
- Python.Hashable: `PyObject` stands for a hashable object; an unhashable object of another class is not modelled.

## Findings

| source | as written | input that shows it | evidently intended | confidence | as-written member | corrected member |
|---|---|---|---|---|---|---|
| stats/query_builder.py:197 | the statement reads `FROM {self.project_id}` | project `p`, dataset `d`, table `t` gives `FROM p` | `FROM p.d.t`, as the plot writes its path | high, not executed | QueryBuilding.AsWrittenNamesOnlyProject | QueryBuilding.GluedStatementNamesTable |
| stats/query_builder.py:159 | the `in`/`nin` literal joins the values with `str.join` | filter `('a', 'in', [10, 20])` raises TypeError | `(10,20)`, each value's `str()` joined | high, not executed | Filtering.NumericSetLiteral | Filtering.SetLiteralRoundTrip |
| stats/gbq_data.py:20-23 | `__init__` resets the ids and the client after the path setter has set them | any accepted path and credentials leave `gbq` None, yet tests/gbq_data_get_tests.py:13 calls `gbq.get_data` | keep what the setter set up | high, not executed | BigQueryData.GBQData.InitAsWritten | BigQueryData.GBQData.Init |
| stats/utils/utils.py:28-29 | the stdev and var templates spell the placeholder `__metric_` | substituting column `c` into `STDDEV_POP(__metric_) __over__` leaves it unchanged | `__metric__`, as in every other template | high, not executed | Utils.DeviationTemplatesIgnoreMetric | Utils.FixedTemplatePlaceholders |
| old/data_source.py:35 | `__init__` sets `gbq` to None after the setters | the warehouse path `p.d.t` of an existing table leaves `gbq` None | keep the client set up by the warehouse setter | medium, not executed | DataSources.DataSource.InitAsWritten | DataSources.DataSource.Init |
