/**
 * The `project.dataset.table` check shared by the BigQuery setters: a regular
 * expression SEARCH (not a full match) for three non-empty runs of path
 * characters separated by dots, followed by a split of the whole path at
 * every dot.
 */
module GbqPath {
  import opened Python
  import opened Text

  /** The characters of the pattern's character class: ASCII letters and
      digits, the comma (written as a separator inside the class, so taken
      literally), the hyphen and the underscore. */
  predicate IsPathChar(c: char) {
    ('A' <= c <= 'Z') || ('a' <= c <= 'z') || ('0' <= c <= '9') || c == ',' || c == '-' || c == '_'
  }

  /** s[lo..hi] is a non-empty run of path characters. */
  predicate IsRun(s: string, lo: int, hi: int)
    requires 0 <= lo <= hi <= |s|
  {
    lo < hi && forall k | lo <= k < hi :: IsPathChar(s[k])
  }

  /** The pattern matches s[i..e] with its two dots at a and b. */
  predicate MatchesAt(s: string, i: int, a: int, b: int, e: int) {
    0 <= i < a < b < e <= |s| && s[a] == '.' && s[b] == '.'
    && IsRun(s, i, a) && IsRun(s, a + 1, b) && IsRun(s, b + 1, e)
  }

  /** `re.search` succeeds: the pattern matches somewhere in s. */
  ghost predicate PatternFound(s: string) {
    exists i, a, b, e :: MatchesAt(s, i, a, b, e)
  }

  /** The search decided by its shortest matches: two dots with a path
      character before the first, a run between them and a path character
      after the second. */
  function Search(s: string): (r: bool) {
    exists a, b | 0 < a < b < |s| - 1 :: ShortMatch(s, a, b)
  }

  /** The shortest match with its dots at a and b. */
  predicate ShortMatch(s: string, a: int, b: int) {
    MatchesAt(s, a - 1, a, b, b + 2)
  }

  /** The decision procedure agrees with the search: any match can be
      shrunk to one path character on either side of the dots. */
  lemma SearchIff(s: string)
    ensures Search(s) <==> PatternFound(s)
  {
    if PatternFound(s) {
      var i, a, b, e :| MatchesAt(s, i, a, b, e);
      assert ShortMatch(s, a, b);
    }
  }

  /** A character that occurs at two positions occurs at least twice. */
  lemma TwoOccurrences(s: string, c: char, a: nat, b: nat)
    requires a < b < |s| && s[a] == c && s[b] == c
    ensures multiset(s)[c] >= 2
  {
    assert s == s[..a] + [s[a]] + s[a + 1..b] + [s[b]] + s[b + 1..];
    assert multiset(s) == multiset(s[..a]) + multiset([s[a]]) + multiset(s[a + 1..b]) + multiset([s[b]]) + multiset(s[b + 1..]);
  }

  /** A path that passes the search has at least three dot-separated
      fields, so taking fields 0, 1 and 2 cannot fail. */
  lemma AcceptedPathHasThreeFields(s: string)
    requires PatternFound(s)
    ensures |Split(s, '.')| >= 3
  {
    var i, a, b, e :| MatchesAt(s, i, a, b, e);
    TwoOccurrences(s, '.', a, b);
    SplitFieldCount(s, '.');
  }

  /** The three table identifiers taken from the first three fields. */
  datatype TableIds = TableIds(project: string, dataset: string, table: string)

  /** `split('.')` then fields 0, 1 and 2, or None when there are fewer
      than three fields (an IndexError in the caller). */
  function PathIds(s: string): (r: Option<TableIds>)
    ensures r.Some? <==> |Split(s, '.')| >= 3
    ensures r.Some? ==> '.' !in r.value.project && '.' !in r.value.dataset && '.' !in r.value.table
  {
    var fields := Split(s, '.');
    SplitFieldsHaveNoSeparator(s, '.');
    if |fields| < 3 then None else Some(TableIds(fields[0], fields[1], fields[2]))
  }

  /** The full table reference of the three identifiers. */
  function TablePath(projectId: string, datasetId: string, tableId: string): string {
    projectId + "." + datasetId + "." + tableId
  }

  /** The table reference reads back as the three identifiers when none of
      them holds a dot. */
  lemma TablePathRoundTrip(projectId: string, datasetId: string, tableId: string)
    requires '.' !in projectId && '.' !in datasetId && '.' !in tableId
    ensures Split(TablePath(projectId, datasetId, tableId), '.') == [projectId, datasetId, tableId]
  {
    SplitThree(projectId, datasetId, tableId, '.');
    assert TablePath(projectId, datasetId, tableId) == projectId + ['.'] + datasetId + ['.'] + tableId;
  }

  /** A path written as three dot-free identifiers gives them back. */
  lemma PathIdsRoundTrip(p: string, d: string, t: string)
    requires '.' !in p && '.' !in d && '.' !in t
    ensures PathIds(TablePath(p, d, t)) == Some(TableIds(p, d, t))
  {
    TablePathRoundTrip(p, d, t);
  }

  /** The warehouse client a setter opens: the project it bills and the
      service-account credentials file it reads. */
  datatype Client = Client(project: string, credentials: string)

  /** The credentials file the plot and the old data source hard-code. */
  const DEFAULT_CREDENTIALS: string := "credentials/nbar.json"

  /** `check_if_table_exists`: the client looks the table up under its own
      project; `tables` stands for the warehouse's existing tables. */
  predicate TableExists(tables: set<string>, client: Client, datasetId: string, tableId: string) {
    TablePath(client.project, datasetId, tableId) in tables
  }

  /** Every accepted path yields three identifiers. */
  lemma AcceptedPathHasIds(s: string)
    requires Search(s)
    ensures PathIds(s).Some?
  {
    SearchIff(s);
    AcceptedPathHasThreeFields(s);
  }

  /** Only the first three fields are read: whatever follows the third
      field's end is ignored. */
  lemma LeadingFieldsAreIds(p: string, d: string, rest: string)
    requires '.' !in p && '.' !in d
    ensures PathIds(p + "." + d + "." + rest) == Some(TableIds(p, d, Split(rest, '.')[0]))
  {
    SplitLeadingField(d, rest, '.');
    SplitLeadingField(p, d + "." + rest, '.');
    assert p + "." + d + "." + rest == p + ['.'] + (d + ['.'] + rest);
  }

  /** Because the pattern is searched for rather than matched in full, the
      path `!a.b.c` is accepted although its project field is `!a`, which
      the pattern's first group (`a`) does not match. */
  lemma SearchIsNotAnchored()
    ensures Search("!a.b.c") && !IsPathChar('!')
    ensures PathIds("!a.b.c") == Some(TableIds("!a", "b", "c"))
  {
    assert ShortMatch("!a.b.c", 2, 4);
    assert '.' !in "!a" && '.' !in "b" && '.' !in "c";
    PathIdsRoundTrip("!a", "b", "c");
    assert TablePath("!a", "b", "c") == "!a.b.c";
  }

  /** `p.d.t.x` is accepted as table `t` of dataset `d`. */
  lemma ExtraFieldsIgnored()
    ensures Search("p.d.t.x")
    ensures PathIds("p.d.t.x") == Some(TableIds("p", "d", "t"))
  {
    assert ShortMatch("p.d.t.x", 1, 3);
    LeadingFieldsAreIds("p", "d", "t.x");
    SplitLeadingField("t", "x", '.');
    assert "t.x" == "t" + ['.'] + "x";
    assert "p" + "." + "d" + "." + "t.x" == "p.d.t.x";
  }

  /** A path with only two fields is refused. */
  lemma TwoFieldsRefused()
    ensures !Search("d.t")
  {
  }
}
