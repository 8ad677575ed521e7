/**
 * The Python string operations the core relies on: `str.split`, `str.join`,
 * `str.endswith`, `str.upper` (on ASCII), `str.replace`, `"".join` and
 * substring occurrence, with the facts about them that the rest of the model
 * uses.
 */
module Text {

  /** s.split(sep) for a one-character separator: the text between
      consecutive separators, always one field more than separators. */
  function Split(s: string, sep: char): (r: seq<string>)
    ensures |r| >= 1
    decreases |s|
  {
    if s == [] then [""]
    else
      var rest := Split(s[1..], sep);
      if s[0] == sep then [""] + rest else [[s[0]] + rest[0]] + rest[1..]
  }

  /** sep.join(parts). */
  function Join(parts: seq<string>, sep: string): string
    decreases |parts|
  {
    if |parts| == 0 then ""
    else if |parts| == 1 then parts[0]
    else parts[0] + sep + Join(parts[1..], sep)
  }

  /** "".join(parts). */
  function Concat(parts: seq<string>): string
    decreases |parts|
  {
    if parts == [] then "" else parts[0] + Concat(parts[1..])
  }

  /** s.split(sep) has exactly one field more than s has separators. */
  lemma {:induction false} SplitFieldCount(s: string, sep: char)
    ensures |Split(s, sep)| == multiset(s)[sep] + 1
    decreases |s|
  {
    if s != [] {
      SplitFieldCount(s[1..], sep);
      assert s == [s[0]] + s[1..];
      assert multiset(s) == multiset([s[0]]) + multiset(s[1..]);
    }
  }

  /** No field of s.split(sep) contains sep. */
  lemma {:induction false} SplitFieldsHaveNoSeparator(s: string, sep: char)
    ensures forall i | 0 <= i < |Split(s, sep)| :: sep !in Split(s, sep)[i]
    decreases |s|
  {
    if s != [] {
      SplitFieldsHaveNoSeparator(s[1..], sep);
      var rest := Split(s[1..], sep);
      if s[0] != sep {
        var r := Split(s, sep);
        assert r[0] == [s[0]] + rest[0];
        forall i | 0 <= i < |r| ensures sep !in r[i] {
          if i > 0 { assert r[i] == rest[i]; }
        }
      }
    }
  }

  lemma JoinPrependHead(c: string, parts: seq<string>, sep: string)
    requires |parts| >= 1
    ensures Join([c + parts[0]] + parts[1..], sep) == c + Join(parts, sep)
  {
    var ps := [c + parts[0]] + parts[1..];
    if |parts| > 1 {
      assert ps[1..] == parts[1..];
    }
  }

  /** Joining the fields of s.split(sep) with sep gives s back. */
  lemma {:induction false} JoinSplit(s: string, sep: char)
    ensures Join(Split(s, sep), [sep]) == s
    decreases |s|
  {
    if s != [] {
      JoinSplit(s[1..], sep);
      var rest := Split(s[1..], sep);
      if s[0] == sep {
        assert ([""] + rest)[1..] == rest;
        assert Join([""] + rest, [sep]) == "" + [sep] + Join(rest, [sep]);
      } else {
        JoinPrependHead([s[0]], rest, [sep]);
      }
      assert s == [s[0]] + s[1..];
    }
  }

  /** Splitting a sep-join of separator-free parts gives the parts back. */
  lemma {:induction false} SplitJoin(parts: seq<string>, sep: char)
    requires |parts| >= 1
    requires forall i | 0 <= i < |parts| :: sep !in parts[i]
    ensures Split(Join(parts, [sep]), sep) == parts
    decreases |parts|, |parts[0]|
  {
    if |parts| == 1 {
      SplitNoSeparator(parts[0], sep);
    } else if parts[0] == "" {
      var tail := parts[1..];
      SplitJoin(tail, sep);
      assert Join(parts, [sep]) == [sep] + Join(tail, [sep]);
      assert Split(Join(parts, [sep]), sep) == [""] + tail;
      assert parts == [""] + tail;
    } else {
      var c := parts[0][0];
      var shorter := [parts[0][1..]] + parts[1..];
      assert shorter[0] == parts[0][1..] && shorter[1..] == parts[1..];
      SplitJoin(shorter, sep);
      JoinPrependHead([c], shorter, [sep]);
      assert [c] + shorter[0] == parts[0];
      assert [[c] + shorter[0]] + shorter[1..] == parts;
      var j := Join(parts, [sep]);
      assert j == [c] + Join(shorter, [sep]);
      assert j[1..] == Join(shorter, [sep]);
    }
  }

  lemma {:induction false} SplitNoSeparator(s: string, sep: char)
    requires sep !in s
    ensures Split(s, sep) == [s]
    decreases |s|
  {
    if s != [] {
      assert sep !in s[1..] by {
        forall k | 0 <= k < |s[1..]| ensures s[1..][k] != sep { assert s[1..][k] == s[k + 1]; }
      }
      SplitNoSeparator(s[1..], sep);
      assert [s[0]] + s[1..] == s;
    }
  }

  /** A leading field without the separator splits off as the first field. */
  lemma {:induction false} SplitLeadingField(p: string, rest: string, sep: char)
    requires sep !in p
    ensures Split(p + [sep] + rest, sep) == [p] + Split(rest, sep)
    decreases |p|
  {
    var s := p + [sep] + rest;
    if p == [] {
      assert s[1..] == rest;
    } else {
      assert sep !in p[1..] by {
        forall k | 0 <= k < |p[1..]| ensures p[1..][k] != sep { assert p[1..][k] == p[k + 1]; }
      }
      SplitLeadingField(p[1..], rest, sep);
      assert s[1..] == p[1..] + [sep] + rest;
      assert [p[0]] + p[1..] == p;
    }
  }

  /** The three parts of p + "." + d + "." + t, when none contains a dot. */
  lemma SplitThree(p: string, d: string, t: string, sep: char)
    requires sep !in p && sep !in d && sep !in t
    ensures Split(p + [sep] + d + [sep] + t, sep) == [p, d, t]
  {
    assert Join([t], [sep]) == t;
    assert [d, t][1..] == [t];
    assert Join([d, t], [sep]) == d + [sep] + t;
    assert [p, d, t][1..] == [d, t];
    assert Join([p, d, t], [sep]) == p + [sep] + (d + [sep] + t);
    assert p + [sep] + (d + [sep] + t) == p + [sep] + d + [sep] + t;
    SplitJoin([p, d, t], sep);
  }

  /** s.endswith(suffix). */
  predicate EndsWith(s: string, suffix: string) {
    |suffix| <= |s| && s[|s| - |suffix|..] == suffix
  }

  /** s.endswith(suffix) exactly when s is some text followed by suffix. */
  lemma EndsWithIff(s: string, suffix: string)
    ensures EndsWith(s, suffix) <==> exists p: string :: p + suffix == s
  {
    if EndsWith(s, suffix) {
      var p := s[..|s| - |suffix|];
      assert p + suffix == s;
    }
    if exists p: string :: p + suffix == s {
      var p: string :| p + suffix == s;
      assert s[|s| - |suffix|..] == suffix;
    }
  }

  function UpperChar(c: char): char {
    if 'a' <= c <= 'z' then (c as int - 'a' as int + 'A' as int) as char else c
  }

  /** s.upper() on ASCII text. */
  function Upper(s: string): (r: string)
    ensures |r| == |s|
    ensures forall i | 0 <= i < |s| :: r[i] == UpperChar(s[i])
  {
    seq(|s|, i requires 0 <= i < |s| => UpperChar(s[i]))
  }

  /** The two sort directions upper-case to the SQL keywords. */
  lemma UpperOfDirections()
    ensures Upper("asc") == "ASC"
    ensures Upper("desc") == "DESC"
  {
    assert Upper("asc")[0] == 'A' && Upper("asc")[1] == 'S' && Upper("asc")[2] == 'C';
    assert Upper("desc")[0] == 'D' && Upper("desc")[1] == 'E';
    assert Upper("desc")[2] == 'S' && Upper("desc")[3] == 'C';
  }

  /** pat occurs in s starting at index p. */
  predicate OccursAt(s: string, pat: string, p: int) {
    0 <= p && p + |pat| <= |s| && s[p..p + |pat|] == pat
  }

  /** pat in s. */
  ghost predicate Occurs(s: string, pat: string) {
    exists p :: OccursAt(s, pat, p)
  }

  /** pat occurs in s exactly once, at index p. */
  ghost predicate OccursOnlyAt(s: string, pat: string, p: int) {
    OccursAt(s, pat, p) && forall q :: OccursAt(s, pat, q) ==> q == p
  }

  lemma OccursAtChar(s: string, pat: string, p: int, k: nat)
    requires OccursAt(s, pat, p) && k < |pat|
    ensures s[p + k] == pat[k]
  {
    assert s[p..p + |pat|][k] == s[p + k];
  }

  /** A pattern that has a character s lacks does not occur in s. */
  lemma AbsentCharMeansNoOccurrence(s: string, pat: string, k: nat)
    requires k < |pat| && pat[k] !in s
    ensures !Occurs(s, pat)
  {
    forall p | OccursAt(s, pat, p) ensures s[p + k] == pat[k] {
      OccursAtChar(s, pat, p, k);
    }
  }

  /** If pat[k] occurs in s only at index j, and pat does not occur at
      j - k, then pat does not occur in s at all. */
  lemma AnchorRulesOut(s: string, pat: string, k: nat, j: int)
    requires k < |pat|
    requires forall i | 0 <= i < |s| && s[i] == pat[k] :: i == j
    requires !OccursAt(s, pat, j - k)
    ensures !Occurs(s, pat)
  {
    forall p | OccursAt(s, pat, p) ensures s[p + k] == pat[k] {
      OccursAtChar(s, pat, p, k);
    }
  }

  /** If pat[k] occurs in s only at index j and pat occurs at j - k, then
      that is the only occurrence of pat. */
  lemma AnchorFixesOccurrence(s: string, pat: string, k: nat, j: int)
    requires k < |pat|
    requires forall i | 0 <= i < |s| && s[i] == pat[k] :: i == j
    requires OccursAt(s, pat, j - k)
    ensures OccursOnlyAt(s, pat, j - k)
  {
    forall p | OccursAt(s, pat, p) ensures s[p + k] == pat[k] {
      OccursAtChar(s, pat, p, k);
    }
  }

  /** pat occurs exactly once in s. */
  ghost predicate OccursOnce(s: string, pat: string) {
    exists p :: OccursOnlyAt(s, pat, p)
  }

  lemma UniqueCharAround(a: string, pat: string, b: string, k: nat)
    requires k < |pat|
    requires forall i | 0 <= i < |pat| && pat[i] == pat[k] :: i == k
    requires pat[k] !in a && pat[k] !in b
    ensures forall i | 0 <= i < |a + pat + b| && (a + pat + b)[i] == pat[k] :: i == |a| + k
  {
  }

  /** pat occurs in a + pat + b only at |a| when one of its characters
      appears once in pat and nowhere in a or b. */
  lemma OnlyOccurrenceBetween(a: string, pat: string, b: string, k: nat)
    requires k < |pat|
    requires forall i | 0 <= i < |pat| && pat[i] == pat[k] :: i == k
    requires pat[k] !in a && pat[k] !in b
    ensures OccursOnlyAt(a + pat + b, pat, |a|)
  {
    var s := a + pat + b;
    assert s[|a|..|a| + |pat|] == pat;
    UniqueCharAround(a, pat, b, k);
    AnchorFixesOccurrence(s, pat, k, |a| + k);
  }

  /** s.replace(pat, rep): every non-overlapping occurrence of pat, from the
      left, replaced by rep. */
  function Replace(s: string, pat: string, rep: string): string
    requires |pat| > 0
    decreases |s|
  {
    if |s| < |pat| then s
    else if s[..|pat|] == pat then rep + Replace(s[|pat|..], pat, rep)
    else [s[0]] + Replace(s[1..], pat, rep)
  }

  lemma OccursAtShift(s: string, pat: string, p: int, d: nat)
    requires d <= |s| && 0 <= p
    ensures OccursAt(s[d..], pat, p) <==> OccursAt(s, pat, p + d)
  {
    if p + |pat| <= |s| - d {
      assert s[d..][p..p + |pat|] == s[p + d..p + d + |pat|];
    }
  }

  /** A pattern absent from s is absent from every suffix of s. */
  lemma AbsentFromSuffix(s: string, pat: string, d: nat)
    requires d <= |s| && !Occurs(s, pat)
    ensures !Occurs(s[d..], pat)
  {
    if Occurs(s[d..], pat) {
      var p :| OccursAt(s[d..], pat, p);
      OccursAtShift(s, pat, p, d);
      assert false;
    }
  }

  /** Replace copies a leading character that does not start pat. */
  lemma ReplaceSkipsHead(s: string, pat: string, rep: string)
    requires |pat| > 0 && |s| >= |pat| && !OccursAt(s, pat, 0)
    ensures Replace(s, pat, rep) == [s[0]] + Replace(s[1..], pat, rep)
  {
    assert s[..|pat|] != pat;
  }

  /** Replacing a pattern that does not occur changes nothing. */
  lemma {:induction false} ReplaceAbsent(s: string, pat: string, rep: string)
    requires |pat| > 0 && !Occurs(s, pat)
    ensures Replace(s, pat, rep) == s
    decreases |s|
  {
    if |s| >= |pat| {
      assert !OccursAt(s, pat, 0);
      ReplaceSkipsHead(s, pat, rep);
      AbsentFromSuffix(s, pat, 1);
      ReplaceAbsent(s[1..], pat, rep);
      assert [s[0]] + s[1..] == s;
    }
  }

  /** The only occurrence at j > 0 moves to j - 1 in s[1..]. */
  lemma OnlyOccurrenceInTail(s: string, pat: string, j: int)
    requires OccursOnlyAt(s, pat, j) && j > 0
    ensures OccursOnlyAt(s[1..], pat, j - 1)
  {
    OccursAtShift(s, pat, j - 1, 1);
    forall q | OccursAt(s[1..], pat, q) ensures q == j - 1 {
      OccursAtShift(s, pat, q, 1);
    }
  }

  /** After the only occurrence, at 0, the rest holds no occurrence. */
  lemma NothingAfterOnlyOccurrence(s: string, pat: string)
    requires |pat| > 0 && OccursOnlyAt(s, pat, 0)
    ensures !Occurs(s[|pat|..], pat)
  {
    if Occurs(s[|pat|..], pat) {
      var p :| OccursAt(s[|pat|..], pat, p);
      OccursAtShift(s, pat, p, |pat|);
      assert false;
    }
  }

  /** Replacing a pattern that occurs only at j substitutes rep there and
      leaves the rest of s as it is. */
  lemma {:induction false} ReplaceSingle(s: string, pat: string, rep: string, j: int)
    requires |pat| > 0 && OccursOnlyAt(s, pat, j)
    ensures Replace(s, pat, rep) == s[..j] + rep + s[j + |pat|..]
    decreases |s|
  {
    if j == 0 {
      assert s[..|pat|] == pat;
      NothingAfterOnlyOccurrence(s, pat);
      ReplaceAbsent(s[|pat|..], pat, rep);
    } else {
      ReplaceSkipsHead(s, pat, rep);
      OnlyOccurrenceInTail(s, pat, j);
      var rest := s[1..];
      ReplaceSingle(rest, pat, rep, j - 1);
      assert rest[..j - 1] == s[1..j];
      assert rest[j - 1 + |pat|..] == s[j + |pat|..];
      assert [s[0]] + s[1..j] == s[..j];
    }
  }

  /** "".join(a + b) is "".join(a) followed by "".join(b). */
  lemma {:induction false} ConcatAppend(a: seq<string>, b: seq<string>)
    ensures Concat(a + b) == Concat(a) + Concat(b)
    decreases |a|
  {
    if a != [] {
      ConcatAppend(a[1..], b);
      assert (a + b)[1..] == a[1..] + b;
      assert (a + b)[0] == a[0];
      assert Concat(a + b) == a[0] + Concat(a[1..] + b);
      assert Concat(a) == a[0] + Concat(a[1..]);
      assert a[0] + (Concat(a[1..]) + Concat(b)) == (a[0] + Concat(a[1..])) + Concat(b);
    } else {
      assert a + b == b;
    }
  }

  /** "".join(parts) is the parts before k, then part k, then the parts
      after it. */
  lemma ConcatAround(parts: seq<string>, k: nat)
    requires k < |parts|
    ensures Concat(parts) == Concat(parts[..k]) + parts[k] + Concat(parts[k + 1..])
  {
    assert parts == parts[..k] + parts[k..];
    ConcatAppend(parts[..k], parts[k..]);
    assert parts[k..][1..] == parts[k + 1..];
  }

  /** "".join of an empty list is the empty string, and only then when every
      part is non-empty. */
  lemma {:induction false} ConcatEmpty(parts: seq<string>)
    requires forall k | 0 <= k < |parts| :: |parts[k]| > 0
    ensures Concat(parts) == "" <==> parts == []
  {
    if parts != [] {
      assert |Concat(parts)| >= |parts[0]| > 0;
    }
  }
}
