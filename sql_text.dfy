/**
 * The text of the generated SELECT statement: the projection and grouping
 * built from x, y and the aggregation, the ordering built from the sort
 * direction, and the fixed layout the builders assemble them into.
 */
module Sql {
  import opened Python
  import opened Text
  import opened Utils

  /** The group-by clause and the select list. */
  datatype Projection = Projection(groupBy: string, select: string)

  /** With an aggregation, y is aggregated per value of x and the result
      keeps the name y; without one, x and y are selected as they are and
      nothing is grouped. Either way the list starts with x and its last
      output column is named y. */
  function AggrData(x: string, y: string, aggregation: Option<string>): (r: Projection)
    ensures r.groupBy == "" <==> aggregation.None?
    ensures aggregation.Some? ==> r.groupBy == " GROUP BY " + x + " "
    ensures |r.select| >= |x| + |y| + 4
    ensures r.select[..|x| + 3] == " " + x + ", "
    ensures r.select[|r.select| - |y| - 1..] == y + " "
  {
    match aggregation
    case None =>
      var s := " " + x + ", " + y + " ";
      assert s[|s| - |y| - 1..] == y + " ";
      Projection("", s)
    case Some(a) =>
      var s := " " + x + ", " + a + "(" + y + ") AS " + y + " ";
      assert s[|s| - |y| - 1..] == y + " ";
      Projection(" GROUP BY " + x + " ", s)
  }

  /** With an aggregation, the select list is x followed by the aggregate
      of y under the alias y. */
  lemma AggregateIsAliased(x: string, y: string, a: string)
    ensures AggrData(x, y, Some(a)).select == " " + x + ", " + a + "(" + y + ") AS " + y + " "
    ensures AggrData(x, y, None).select == " " + x + ", " + y + " "
  {
  }

  /** No sort gives no clause; a direction orders by y, upper-cased. */
  function SortData(y: string, sort: Option<string>): (r: string)
    ensures r == "" <==> sort.None?
    ensures sort.Some? ==> |r| == |y| + |sort.value| + 12 && r[..10 + |y|] == " ORDER BY " + y
  {
    match sort
    case None => ""
    case Some(s) =>
      var r := " ORDER BY " + y + " " + Upper(s) + " ";
      assert r[..10 + |y|] == " ORDER BY " + y;
      r
  }

  /** The two accepted directions give the SQL keywords ASC and DESC. */
  lemma SortKeyword(y: string, s: string)
    requires s in SORT_DIRECTIONS
    ensures SortData(y, Some(s)) == " ORDER BY " + y + (if s == "asc" then " ASC " else " DESC ")
  {
    UpperOfDirections();
    if s == "asc" {
      assert " ORDER BY " + y + " " + "ASC" + " " == " ORDER BY " + y + " ASC ";
    } else {
      assert " ORDER BY " + y + " " + "DESC" + " " == " ORDER BY " + y + " DESC ";
    }
  }

  /** The column the rows are ordered by is the last output column of the
      select list, so an aggregated query orders by the aggregate. */
  lemma SortTargetIsOutputColumn(x: string, y: string, aggregation: Option<string>, s: string)
    ensures var sel := AggrData(x, y, aggregation).select;
            SortData(y, Some(s))[10..10 + |y|] == sel[|sel| - |y| - 1..|sel| - 1]
  {
    var sel := AggrData(x, y, aggregation).select;
    var r := SortData(y, Some(s));
    assert r[10..10 + |y|] == r[..10 + |y|][10..];
    assert sel[|sel| - |y| - 1..|sel| - 1] == sel[|sel| - |y| - 1..][..|y|];
  }

  /** Everything before the filter clauses: the select list, the table and
      the always-true condition the clauses are appended to. */
  function QueryHead(select: string, from: string): string {
    "SELECT " + select + " \n        FROM " + from + "\n        WHERE 1=1\n        "
  }

  /** Everything after the filter clauses: grouping, then ordering. */
  function QueryTail(groupBy: string, sortBy: string): string {
    " \n        " + groupBy + " " + sortBy
  }

  /** The statement text: select list, table, `WHERE 1=1`, the filter
      clauses joined with no separator, the group-by and the order-by. */
  function Query(select: string, from: string, clauses: seq<string>, groupBy: string, sortBy: string): string {
    "SELECT " + select + " \n        FROM " + from + "\n        WHERE 1=1\n        " + Concat(clauses) + " \n        " + groupBy + " " + sortBy
  }

  /** b sits in a + b + c right after a. */
  lemma Infix(a: string, b: string, c: string)
    ensures |a + b + c| == |a| + |b| + |c|
    ensures (a + b + c)[|a|..|a| + |b|] == b
  {
    assert (a + b + c)[|a|..] == b + c;
  }

  /** The statement is the part before the clauses, the clauses joined,
      and the part after them. */
  lemma QueryParts(select: string, from: string, clauses: seq<string>, groupBy: string, sortBy: string)
    ensures Query(select, from, clauses, groupBy, sortBy) ==
              QueryHead(select, from) + Concat(clauses) + QueryTail(groupBy, sortBy)
  {
  }

  /** The statement starts with the select list and names the table right
      after `FROM `. */
  lemma QueryNamesTable(select: string, from: string, clauses: seq<string>, groupBy: string, sortBy: string)
    ensures var q := Query(select, from, clauses, groupBy, sortBy);
            |q| >= 22 + |select| + |from| &&
            q[..7 + |select|] == "SELECT " + select &&
            q[22 + |select|..22 + |select| + |from|] == from
  {
    var q := Query(select, from, clauses, groupBy, sortBy);
    var front := "SELECT " + select + " \n        FROM ";
    var afterFrom := "\n        WHERE 1=1\n        " + Concat(clauses) + QueryTail(groupBy, sortBy);
    QueryParts(select, from, clauses, groupBy, sortBy);
    assert q == front + from + afterFrom;
    Infix(front, from, afterFrom);
    assert q[..7 + |select|] == front[..7 + |select|];
  }

  /** The line after the table is `WHERE 1=1`. */
  lemma QueryHasWhere(select: string, from: string, clauses: seq<string>, groupBy: string, sortBy: string)
    ensures var q := Query(select, from, clauses, groupBy, sortBy);
            |q| >= 40 + |select| + |from| &&
            q[31 + |select| + |from|..40 + |select| + |from|] == "WHERE 1=1"
  {
    var q := Query(select, from, clauses, groupBy, sortBy);
    var upToTable := "SELECT " + select + " \n        FROM " + from + "\n        ";
    var rest := "\n        " + Concat(clauses) + QueryTail(groupBy, sortBy);
    QueryParts(select, from, clauses, groupBy, sortBy);
    assert QueryHead(select, from) == upToTable + "WHERE 1=1" + "\n        ";
    assert q == upToTable + "WHERE 1=1" + rest;
    Infix(upToTable, "WHERE 1=1", rest);
  }

  /** Clause k sits right after `WHERE 1=1` and the clauses before it:
      the clauses appear one after another, in list order. */
  lemma ClauseAt(select: string, from: string, clauses: seq<string>, groupBy: string, sortBy: string, k: nat)
    requires k < |clauses|
    ensures var q := Query(select, from, clauses, groupBy, sortBy);
            var at := |QueryHead(select, from)| + |Concat(clauses[..k])|;
            |q| >= at + |clauses[k]| && q[at..at + |clauses[k]|] == clauses[k]
  {
    QueryParts(select, from, clauses, groupBy, sortBy);
    ConcatAround(clauses, k);
    var before := QueryHead(select, from) + Concat(clauses[..k]);
    var after := Concat(clauses[k + 1..]) + QueryTail(groupBy, sortBy);
    assert Query(select, from, clauses, groupBy, sortBy) == before + clauses[k] + after;
    Infix(before, clauses[k], after);
  }

  /** The statement ends with the grouping and the ordering. */
  lemma QueryEndsWithTail(select: string, from: string, clauses: seq<string>, groupBy: string, sortBy: string)
    ensures var q := Query(select, from, clauses, groupBy, sortBy);
            |q| >= |QueryTail(groupBy, sortBy)| &&
            q[|q| - |QueryTail(groupBy, sortBy)|..] == QueryTail(groupBy, sortBy)
  {
    QueryParts(select, from, clauses, groupBy, sortBy);
    var front := QueryHead(select, from) + Concat(clauses);
    Infix(front, QueryTail(groupBy, sortBy), "");
    assert front + QueryTail(groupBy, sortBy) + "" == front + QueryTail(groupBy, sortBy);
  }

  /** When every clause starts with `AND `, the text right after `WHERE 1=1`
      starts with `AND ` exactly when there is at least one clause: no
      filters, no condition beyond `1=1`. */
  lemma FiltersFollowWhere(select: string, from: string, clauses: seq<string>, groupBy: string, sortBy: string)
    requires forall k | 0 <= k < |clauses| :: |clauses[k]| >= 4 && clauses[k][..4] == "AND "
    ensures var rest := Query(select, from, clauses, groupBy, sortBy)[|QueryHead(select, from)|..];
            (|rest| >= 4 && rest[..4] == "AND ") <==> clauses != []
  {
    QueryParts(select, from, clauses, groupBy, sortBy);
    var q := Query(select, from, clauses, groupBy, sortBy);
    var head := QueryHead(select, from);
    var rest := q[|head|..];
    assert rest == Concat(clauses) + QueryTail(groupBy, sortBy);
    if clauses == [] {
      assert rest[0] == ' ';
    } else {
      assert Concat(clauses) == clauses[0] + Concat(clauses[1..]);
      assert rest[..4] == clauses[0][..4];
    }
  }
}
