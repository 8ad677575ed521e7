/**
 * The static registries shared by the query builders: operator names and
 * their SQL symbols, aggregation names and their SQL templates (with the
 * `__metric__` and `__over__` placeholders), the window aggregations, the
 * plot types, and the name lists the setters validate against.
 */
module Utils {
  import opened Text

  /** The placeholder a template's metric column replaces. */
  const METRIC: string := "__metric__"
  /** The placeholder a window clause replaces. */
  const OVER: string := "__over__"

  /** Filter operator name to SQL comparison symbol. */
  const OPERAND_MAP: map<string, string> :=
    map["eq" := "=", "ne" := "!=", "gt" := ">", "lt" := "<",
        "ge" := ">=", "le" := "<=", "in" := "IN", "nin" := "NOT IN"]

  /** Aggregation name to SQL template, exactly as registered. */
  const AGGR_MAP: map<string, string> :=
    map["avg" := "AVG(__metric__)",
        "sum" := "SUM(__metric__)",
        "min" := "MIN(__metric__)",
        "max" := "MAX(__metric__)",
        "count" := "COUNT(__metric__)",
        "count_distinct" := "COUNT(DISTINCT __metric__)",
        "count_nulls" := "SUM(CASE WHEN __metric__ IS NULL THEN 1 ELSE 0 END)",
        "any" := "ANY_VALUE(__metric__)",
        "string_agg" := "STRING_AGG(__metric__)",
        "array_agg" := "ARRAY_AGG(__metric__)",
        "string_agg_distinct" := "STRING_AGG(DISTINCT __metric__)",
        "array_agg_distinct" := "ARRAY_AGG(DISTINCT __metric__)",
        "median" := "PERCENTILE_CONT(__metric__, 0.5) __over__",
        "q1" := "PERCENTILE_CONT(__metric__, 0.25) __over__",
        "q3" := "PERCENTILE_CONT(__metric__, 0.75) __over__",
        "min_run" := "MIN(__metric__) __over__",
        "max_run" := "MAX(__metric__) __over__",
        "stdev" := "STDDEV_POP(__metric_) __over__",
        "var" := "VAR_POP(__metric_) __over__"]

  /** The aggregations computed over a window. */
  const WINDOW_AGGRS: seq<string> := ["q1", "median", "q3", "stdev", "var", "min_run", "max_run"]

  /** The plot kinds the plotting front end offers. */
  const PLOT_TYPES: seq<string> := ["bar", "barh", "boxplot", "scatter"]

  /** The aggregation names the setters accept. */
  const AGGR_TYPES: seq<string> :=
    ["mean", "sum", "min", "max", "count", "first", "last", "median", "std", "var", "mad"]

  /** The filter operator names the filter validation accepts. */
  const OPERAND_TYPES: seq<string> := ["eq", "ne", "gt", "lt", "ge", "le", "in", "nin"]

  /** The operators whose value is a collection. */
  const SET_OPERANDS: seq<string> := ["in", "nin"]

  /** The operators whose value is a single scalar. */
  const SCALAR_OPERANDS: seq<string> := ["eq", "ne", "le", "lt", "ge", "gt"]

  /** The sort directions the sort setters accept. */
  const SORT_DIRECTIONS: seq<string> := ["asc", "desc"]

  /** The operator table is keyed by exactly the operator names, which are
      eight distinct names. */
  lemma OperandMapKeys()
    ensures OPERAND_MAP.Keys == set o | o in OPERAND_TYPES
    ensures |OPERAND_TYPES| == 8
    ensures forall i, j | 0 <= i < j < |OPERAND_TYPES| :: OPERAND_TYPES[i] != OPERAND_TYPES[j]
  {
  }

  /** `in` and `nin` render as `IN` and `NOT IN`, and no two operators share
      a symbol. */
  lemma OperandSymbols()
    ensures OPERAND_MAP["in"] == "IN" && OPERAND_MAP["nin"] == "NOT IN"
    ensures forall a, b | a in OPERAND_MAP && b in OPERAND_MAP && a != b :: OPERAND_MAP[a] != OPERAND_MAP[b]
  {
  }

  /** Every operator is exactly one of a scalar or a set operator. */
  lemma OperandClassesPartition()
    ensures forall o | o in OPERAND_TYPES :: (o in SET_OPERANDS) != (o in SCALAR_OPERANDS)
    ensures forall o | o in SET_OPERANDS || o in SCALAR_OPERANDS :: o in OPERAND_TYPES
  {
  }

  /** The plot types are exactly bar, barh, boxplot and scatter. */
  lemma PlotTypesClosed()
    ensures (set p | p in PLOT_TYPES) == {"bar", "barh", "boxplot", "scatter"}
    ensures |PLOT_TYPES| == 4
  {
  }

  /** Every window aggregation has a template. */
  lemma WindowAggregationsRegistered()
    ensures forall k | k in WINDOW_AGGRS :: k in AGGR_MAP
  {
  }

  /** The metric placeholder once, no window placeholder. */
  ghost predicate PlainPlaceholders(t: string) {
    OccursOnce(t, METRIC) && !Occurs(t, OVER)
  }

  /** The metric placeholder once, and the window placeholder. */
  ghost predicate WindowPlaceholders(t: string) {
    OccursOnce(t, METRIC) && Occurs(t, OVER)
  }

  /** The window placeholder, but no metric placeholder. */
  ghost predicate MisspelledPlaceholders(t: string) {
    !Occurs(t, METRIC) && Occurs(t, OVER)
  }

  lemma CharAbsentFromJoin(c: char, a: string, b: string)
    requires c !in a && c !in b
    ensures c !in a + b
  {
  }

  /** A template a + `__metric__` + b whose outer text has no `m` and no `v`
      holds the metric placeholder once and no window placeholder. */
  lemma PlainTemplateFacts(t: string, a: string, b: string)
    requires t == a + METRIC + b
    requires 'm' !in a && 'm' !in b && 'v' !in a && 'v' !in b
    ensures OccursOnlyAt(t, METRIC, |a|) && OccursOnce(t, METRIC)
    ensures !Occurs(t, OVER)
  {
    OnlyOccurrenceBetween(a, METRIC, b, 2);
    CharAbsentFromJoin('v', a, METRIC);
    CharAbsentFromJoin('v', a + METRIC, b);
    AbsentCharMeansNoOccurrence(t, OVER, 3);
  }

  lemma OverAtEnd(head: string)
    ensures Occurs(head + " " + OVER, OVER)
  {
    var t := head + " " + OVER;
    assert t[|head| + 1..|head| + 1 + |OVER|] == OVER;
    assert OccursAt(t, OVER, |head| + 1);
  }

  /** A template a + `__metric__` + b + " " + `__over__` whose outer text has
      no `m` holds the metric placeholder once and the window placeholder. */
  lemma WindowTemplateFacts(t: string, a: string, b: string)
    requires t == a + METRIC + b + " " + OVER
    requires 'm' !in a && 'm' !in b
    ensures OccursOnlyAt(t, METRIC, |a|) && OccursOnce(t, METRIC)
    ensures Occurs(t, OVER)
  {
    CharAbsentFromJoin('m', b, " " + OVER);
    OnlyOccurrenceBetween(a, METRIC, b + " " + OVER, 2);
    assert a + METRIC + (b + " " + OVER) == t;
    OverAtEnd(a + METRIC + b);
  }

  /** A template a + `__metric_` + ") " + `__over__` (one underscore short)
      whose prefix has no `m` holds the window placeholder but no metric
      placeholder. */
  lemma MisspelledTemplateFacts(t: string, a: string)
    requires t == a + "__metric_" + ") " + OVER
    requires 'm' !in a
    ensures !Occurs(t, METRIC)
    ensures Occurs(t, OVER)
  {
    CharAbsentFromJoin('m', ") ", OVER);
    UniqueCharAround(a, "__metric_", ") " + OVER, 2);
    assert t == a + "__metric_" + (") " + OVER);
    assert t[|a|..|a| + |METRIC|][9] == ')';
    AnchorRulesOut(t, METRIC, 2, |a| + 2);
    OverAtEnd(a + "__metric_" + ")");
    assert a + "__metric_" + ")" + " " + OVER == t;
  }

  // One lemma per registered template: its literal text, split around the
  // placeholders.

  lemma AvgTemplate(t: string) requires t == "AVG(__metric__)" ensures PlainPlaceholders(t)
  { PlainTemplateFacts(t, "AVG(", ")"); }
  lemma SumTemplate(t: string) requires t == "SUM(__metric__)" ensures PlainPlaceholders(t)
  { PlainTemplateFacts(t, "SUM(", ")"); }
  lemma MinTemplate(t: string) requires t == "MIN(__metric__)" ensures PlainPlaceholders(t)
  { PlainTemplateFacts(t, "MIN(", ")"); }
  lemma MaxTemplate(t: string) requires t == "MAX(__metric__)" ensures PlainPlaceholders(t)
  { PlainTemplateFacts(t, "MAX(", ")"); }
  lemma CountTemplate(t: string) requires t == "COUNT(__metric__)" ensures PlainPlaceholders(t)
  { PlainTemplateFacts(t, "COUNT(", ")"); }
  lemma CountDistinctTemplate(t: string) requires t == "COUNT(DISTINCT __metric__)" ensures PlainPlaceholders(t)
  { PlainTemplateFacts(t, "COUNT(DISTINCT ", ")"); }
  lemma CountNullsTemplate(t: string)
    requires t == "SUM(CASE WHEN __metric__ IS NULL THEN 1 ELSE 0 END)"
    ensures PlainPlaceholders(t)
  {
    CountNullsSplit(t);
    CountNullsTail();
    PlainTemplateFacts(t, "SUM(CASE WHEN ", " IS NULL THEN 1 ELSE 0 END)");
  }

  lemma CountNullsSplit(t: string)
    requires t == "SUM(CASE WHEN __metric__ IS NULL THEN 1 ELSE 0 END)"
    ensures t == "SUM(CASE WHEN " + METRIC + " IS NULL THEN 1 ELSE 0 END)"
  {
    CountNullsChunks(t);
    CountNullsTailChunks();
    var a, x, y, z := "SUM(CASE WHEN ", " IS NULL ", "THEN 1 ", "ELSE 0 END)";
    assert a + METRIC + x + y + z == a + METRIC + (x + y + z);
  }

  lemma CountNullsChunks(t: string)
    requires t == "SUM(CASE WHEN __metric__ IS NULL THEN 1 ELSE 0 END)"
    ensures t == "SUM(CASE WHEN " + METRIC + " IS NULL " + "THEN 1 " + "ELSE 0 END)"
  {
  }

  lemma CountNullsTailChunks()
    ensures " IS NULL " + "THEN 1 " + "ELSE 0 END)" == " IS NULL THEN 1 ELSE 0 END)"
  {
  }

  lemma CountNullsTail()
    ensures 'm' !in " IS NULL THEN 1 ELSE 0 END)" && 'v' !in " IS NULL THEN 1 ELSE 0 END)"
  {
    CountNullsTailChunks();
    var x, y, z := " IS NULL ", "THEN 1 ", "ELSE 0 END)";
    assert 'm' !in x && 'm' !in y && 'm' !in z;
    assert 'v' !in x && 'v' !in y && 'v' !in z;
    CharAbsentFromJoin('m', x, y);
    CharAbsentFromJoin('m', x + y, z);
    CharAbsentFromJoin('v', x, y);
    CharAbsentFromJoin('v', x + y, z);
  }

  lemma AnyTemplate(t: string) requires t == "ANY_VALUE(__metric__)" ensures PlainPlaceholders(t)
  { PlainTemplateFacts(t, "ANY_VALUE(", ")"); }
  lemma StringAggTemplate(t: string) requires t == "STRING_AGG(__metric__)" ensures PlainPlaceholders(t)
  { PlainTemplateFacts(t, "STRING_AGG(", ")"); }
  lemma ArrayAggTemplate(t: string) requires t == "ARRAY_AGG(__metric__)" ensures PlainPlaceholders(t)
  { PlainTemplateFacts(t, "ARRAY_AGG(", ")"); }
  lemma StringAggDistinctTemplate(t: string) requires t == "STRING_AGG(DISTINCT __metric__)" ensures PlainPlaceholders(t)
  { PlainTemplateFacts(t, "STRING_AGG(DISTINCT ", ")"); }
  lemma ArrayAggDistinctTemplate(t: string) requires t == "ARRAY_AGG(DISTINCT __metric__)" ensures PlainPlaceholders(t)
  { PlainTemplateFacts(t, "ARRAY_AGG(DISTINCT ", ")"); }
  lemma MedianTemplate(t: string) requires t == "PERCENTILE_CONT(__metric__, 0.5) __over__" ensures WindowPlaceholders(t)
  { WindowTemplateFacts(t, "PERCENTILE_CONT(", ", 0.5)"); }
  lemma Q1Template(t: string) requires t == "PERCENTILE_CONT(__metric__, 0.25) __over__" ensures WindowPlaceholders(t)
  { WindowTemplateFacts(t, "PERCENTILE_CONT(", ", 0.25)"); }
  lemma Q3Template(t: string) requires t == "PERCENTILE_CONT(__metric__, 0.75) __over__" ensures WindowPlaceholders(t)
  { WindowTemplateFacts(t, "PERCENTILE_CONT(", ", 0.75)"); }
  lemma MinRunTemplate(t: string) requires t == "MIN(__metric__) __over__" ensures WindowPlaceholders(t)
  { WindowTemplateFacts(t, "MIN(", ")"); }
  lemma MaxRunTemplate(t: string) requires t == "MAX(__metric__) __over__" ensures WindowPlaceholders(t)
  { WindowTemplateFacts(t, "MAX(", ")"); }
  lemma StdevTemplate(t: string) requires t == "STDDEV_POP(__metric_) __over__" ensures MisspelledPlaceholders(t)
  { MisspelledTemplateFacts(t, "STDDEV_POP("); }
  lemma VarTemplate(t: string) requires t == "VAR_POP(__metric_) __over__" ensures MisspelledPlaceholders(t)
  { MisspelledTemplateFacts(t, "VAR_POP("); }

  lemma SimpleTemplates(k: string)
    requires k in ["avg", "sum", "min", "max", "count", "count_distinct"]
    ensures k in AGGR_MAP && k !in WINDOW_AGGRS && PlainPlaceholders(AGGR_MAP[k])
  {
    var t := AGGR_MAP[k];
    if k == "avg" { AvgTemplate(t); }
    else if k == "sum" { SumTemplate(t); }
    else if k == "min" { MinTemplate(t); }
    else if k == "max" { MaxTemplate(t); }
    else if k == "count" { CountTemplate(t); }
    else { CountDistinctTemplate(t); }
  }

  lemma CollectingTemplates(k: string)
    requires k in ["count_nulls", "any", "string_agg", "array_agg", "string_agg_distinct", "array_agg_distinct"]
    ensures k in AGGR_MAP && k !in WINDOW_AGGRS && PlainPlaceholders(AGGR_MAP[k])
  {
    var t := AGGR_MAP[k];
    if k == "count_nulls" { CountNullsTemplate(t); }
    else if k == "any" { AnyTemplate(t); }
    else if k == "string_agg" { StringAggTemplate(t); }
    else if k == "array_agg" { ArrayAggTemplate(t); }
    else if k == "string_agg_distinct" { StringAggDistinctTemplate(t); }
    else { ArrayAggDistinctTemplate(t); }
  }

  lemma WindowTemplates(k: string)
    requires k in WINDOW_AGGRS
    ensures k in AGGR_MAP
    ensures if k == "stdev" || k == "var" then MisspelledPlaceholders(AGGR_MAP[k])
            else WindowPlaceholders(AGGR_MAP[k])
  {
    var t := AGGR_MAP[k];
    if k == "median" { MedianTemplate(t); }
    else if k == "q1" { Q1Template(t); }
    else if k == "q3" { Q3Template(t); }
    else if k == "min_run" { MinRunTemplate(t); }
    else if k == "max_run" { MaxRunTemplate(t); }
    else if k == "stdev" { StdevTemplate(t); }
    else { VarTemplate(t); }
  }

  /** A template holds the window placeholder exactly when its aggregation
      is a window aggregation, and it holds the metric placeholder exactly
      once unless it is one of the two deviation templates. */
  lemma TemplatePlaceholders()
    ensures forall k | k in AGGR_MAP :: Occurs(AGGR_MAP[k], OVER) <==> k in WINDOW_AGGRS
    ensures forall k | k in AGGR_MAP :: OccursOnce(AGGR_MAP[k], METRIC) <==> k != "stdev" && k != "var"
  {
    forall k | k in AGGR_MAP
      ensures Occurs(AGGR_MAP[k], OVER) <==> k in WINDOW_AGGRS
      ensures OccursOnce(AGGR_MAP[k], METRIC) <==> k != "stdev" && k != "var"
    {
      if k in ["avg", "sum", "min", "max", "count", "count_distinct"] {
        SimpleTemplates(k);
      } else if k in ["count_nulls", "any", "string_agg", "array_agg", "string_agg_distinct", "array_agg_distinct"] {
        CollectingTemplates(k);
      } else {
        WindowTemplates(k);
      }
    }
  }

  /** Replacing the metric placeholder by a column puts the column at the
      placeholder's only position and leaves the rest of the template. */
  ghost predicate SubstitutesOnce(t: string, column: string) {
    exists p :: OccursOnlyAt(t, METRIC, p) && Replace(t, METRIC, column) == t[..p] + column + t[p + |METRIC|..]
  }

  lemma OnceMeansSubstitutesOnce(t: string, column: string)
    requires OccursOnce(t, METRIC)
    ensures SubstitutesOnce(t, column)
  {
    var p :| OccursOnlyAt(t, METRIC, p);
    ReplaceSingle(t, METRIC, column, p);
  }

  /** Every template but the two deviation ones takes the metric column at
      its placeholder. */
  lemma TemplateSubstitution(k: string, column: string)
    requires k in AGGR_MAP && k != "stdev" && k != "var"
    ensures SubstitutesOnce(AGGR_MAP[k], column)
  {
    TemplatePlaceholders();
    OnceMeansSubstitutesOnce(AGGR_MAP[k], column);
  }

  /** The `stdev` and `var` templates spell the placeholder `__metric_`, so
      substituting the metric column leaves them exactly as they are. */
  lemma DeviationTemplatesIgnoreMetric(column: string)
    ensures Replace(AGGR_MAP["stdev"], METRIC, column) == AGGR_MAP["stdev"]
    ensures Replace(AGGR_MAP["var"], METRIC, column) == AGGR_MAP["var"]
  {
    WindowTemplates("stdev");
    WindowTemplates("var");
    ReplaceAbsent(AGGR_MAP["stdev"], METRIC, column);
    ReplaceAbsent(AGGR_MAP["var"], METRIC, column);
  }

  /** The registry with the two deviation templates spelled with the full
      placeholder, as the other templates are. */
  const AGGR_MAP_FIXED: map<string, string> :=
    AGGR_MAP["stdev" := "STDDEV_POP(__metric__) __over__"]["var" := "VAR_POP(__metric__) __over__"]

  lemma FixedStdevTemplate(t: string) requires t == "STDDEV_POP(__metric__) __over__" ensures WindowPlaceholders(t)
  { WindowTemplateFacts(t, "STDDEV_POP(", ")"); }
  lemma FixedVarTemplate(t: string) requires t == "VAR_POP(__metric__) __over__" ensures WindowPlaceholders(t)
  { WindowTemplateFacts(t, "VAR_POP(", ")"); }

  lemma FixedTemplate(k: string)
    requires k in AGGR_MAP_FIXED
    ensures k in AGGR_MAP
    ensures WindowPlaceholders(AGGR_MAP_FIXED[k]) || (PlainPlaceholders(AGGR_MAP_FIXED[k]) && k !in WINDOW_AGGRS)
    ensures Occurs(AGGR_MAP_FIXED[k], OVER) ==> k in WINDOW_AGGRS
  {
    if k == "stdev" {
      FixedStdevTemplate(AGGR_MAP_FIXED[k]);
    } else if k == "var" {
      FixedVarTemplate(AGGR_MAP_FIXED[k]);
    } else {
      assert AGGR_MAP_FIXED[k] == AGGR_MAP[k];
      TemplatePlaceholders();
    }
  }

  /** In the corrected registry every template holds the metric placeholder
      exactly once, the window placeholder exactly for the window
      aggregations, and takes the metric column at its placeholder. */
  lemma FixedTemplatePlaceholders(column: string)
    ensures AGGR_MAP_FIXED.Keys == AGGR_MAP.Keys
    ensures forall k | k in AGGR_MAP_FIXED :: OccursOnce(AGGR_MAP_FIXED[k], METRIC)
    ensures forall k | k in AGGR_MAP_FIXED :: Occurs(AGGR_MAP_FIXED[k], OVER) <==> k in WINDOW_AGGRS
    ensures forall k | k in AGGR_MAP_FIXED :: SubstitutesOnce(AGGR_MAP_FIXED[k], column)
  {
    forall k | k in AGGR_MAP_FIXED
      ensures OccursOnce(AGGR_MAP_FIXED[k], METRIC)
      ensures Occurs(AGGR_MAP_FIXED[k], OVER) <==> k in WINDOW_AGGRS
      ensures SubstitutesOnce(AGGR_MAP_FIXED[k], column)
    {
      FixedTemplate(k);
      OnceMeansSubstitutesOnce(AGGR_MAP_FIXED[k], column);
    }
  }
}
