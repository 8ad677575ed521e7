/**
 * The old data-source handler: exactly one of a local CSV path, a
 * `project.dataset.table` path and a data frame must be given; each one
 * given is checked by its setter (an existing `.csv` file, a path that
 * passes the pattern search and names an existing table, a data frame).
 * The file system and the warehouse are given as the sets of existing
 * files and existing table paths.
 */
module DataSources {
  import opened Python
  import opened Text
  import opened Validation
  import opened GbqPath

  /** How many of the arguments are not None. */
  function GivenCount(args: seq<PyValue>): (n: nat)
    ensures n <= |args|
    decreases |args|
  {
    if args == [] then 0
    else (if args[0] != PyNone then 1 else 0) + GivenCount(args[1..])
  }

  /** Exactly one argument, the one at i, is not None. */
  predicate OnlyGiven(args: seq<PyValue>, i: int) {
    0 <= i < |args| && args[i] != PyNone && forall j | 0 <= j < |args| && j != i :: args[j] == PyNone
  }

  /** No argument is given exactly when the count is zero. */
  lemma {:induction false} NoneGiven(args: seq<PyValue>)
    ensures GivenCount(args) == 0 <==> forall j | 0 <= j < |args| :: args[j] == PyNone
    decreases |args|
  {
    if args != [] {
      NoneGiven(args[1..]);
      assert forall j | 1 <= j < |args| :: args[j] == args[1..][j - 1];
    }
  }

  /** The count is one exactly when a single argument is given. */
  lemma {:induction false} OneGiven(args: seq<PyValue>)
    ensures GivenCount(args) == 1 <==> exists i :: OnlyGiven(args, i)
    decreases |args|
  {
    if args != [] {
      var rest := args[1..];
      OneGiven(rest);
      NoneGiven(rest);
      assert forall j | 1 <= j < |args| :: args[j] == rest[j - 1];
      if args[0] != PyNone {
        if GivenCount(args) == 1 {
          assert OnlyGiven(args, 0);
        }
        if exists i :: OnlyGiven(args, i) {
          var i :| OnlyGiven(args, i);
          assert i == 0;
        }
      } else {
        if GivenCount(args) == 1 {
          var k :| OnlyGiven(rest, k);
          assert OnlyGiven(args, k + 1);
        }
        if exists i :: OnlyGiven(args, i) {
          var i :| OnlyGiven(args, i);
          assert OnlyGiven(rest, i - 1);
        }
      }
    }
  }

  /** A path argument as the Python value it is. */
  function PathValue(p: Option<string>): (v: PyValue)
    ensures v == PyNone <==> p.None?
  {
    match p
    case None => PyNone
    case Some(s) => PyStr(s)
  }

  /** `_raise_if_multiple_args`: anything but exactly one source raises
      WrongNumberOfDataSourcesException. */
  function SourcesError(csvLocalPath: Option<string>, bigqueryPath: Option<string>, dataFrame: PyValue): Option<Error> {
    if GivenCount([PathValue(csvLocalPath), PathValue(bigqueryPath), dataFrame]) != 1 then
      Some(WrongNumberOfDataSourcesException)
    else None
  }

  /** The three sources pass the count exactly when one of them is given
      and the other two are None. */
  lemma ExactlyOneSource(csvLocalPath: Option<string>, bigqueryPath: Option<string>, dataFrame: PyValue)
    ensures SourcesError(csvLocalPath, bigqueryPath, dataFrame) == None <==>
              (csvLocalPath.Some? && bigqueryPath.None? && dataFrame == PyNone) ||
              (csvLocalPath.None? && bigqueryPath.Some? && dataFrame == PyNone) ||
              (csvLocalPath.None? && bigqueryPath.None? && dataFrame != PyNone)
  {
    var args := [PathValue(csvLocalPath), PathValue(bigqueryPath), dataFrame];
    OneGiven(args);
    if exists i :: OnlyGiven(args, i) {
      var i :| OnlyGiven(args, i);
      assert i == 0 || i == 1 || i == 2;
      assert args[0] == PathValue(csvLocalPath) && args[1] == PathValue(bigqueryPath) && args[2] == dataFrame;
    }
    if csvLocalPath.Some? && bigqueryPath.None? && dataFrame == PyNone {
      assert OnlyGiven(args, 0);
    } else if csvLocalPath.None? && bigqueryPath.Some? && dataFrame == PyNone {
      assert OnlyGiven(args, 1);
    } else if csvLocalPath.None? && bigqueryPath.None? && dataFrame != PyNone {
      assert OnlyGiven(args, 2);
    }
  }

  /** The `csv_local_path` setter: None passes; a path that is not an
      existing file raises CSVWrongPathException, and an existing file
      whose name does not end in `.csv` raises CSVWrongSuffixException. */
  function CsvPathError(v: Option<string>, files: set<string>): (r: Option<Error>)
    ensures r == None <==> v.None? || (v.value in files && EndsWith(v.value, ".csv"))
    ensures v.Some? && v.value !in files ==> r == Some(CSVWrongPathException)
    ensures v.Some? && v.value in files && !EndsWith(v.value, ".csv") ==> r == Some(CSVWrongSuffixException)
  {
    match v
    case None => None
    case Some(p) =>
      if p !in files then Some(CSVWrongPathException)
      else if !EndsWith(p, ".csv") then Some(CSVWrongSuffixException)
      else None
  }

  /** The `bigquery_path` setter: None passes; a path the pattern search
      rejects raises GBQWrongPathPatternException, and an accepted path
      whose table the client for its project cannot find raises
      GBQTableNotExist. */
  function BigqueryPathError(v: Option<string>, tables: set<string>): (r: Option<Error>)
    ensures r == None <==>
              v.None? || (Search(v.value) && PathIds(v.value).Some? &&
                          TablePath(PathIds(v.value).value.project, PathIds(v.value).value.dataset,
                                    PathIds(v.value).value.table) in tables)
    ensures v.Some? && !Search(v.value) ==> r == Some(GBQWrongPathPatternException)
    ensures r != None ==> r in {Some(GBQWrongPathPatternException), Some(GBQTableNotExist)}
  {
    match v
    case None => None
    case Some(p) =>
      if !Search(p) then Some(GBQWrongPathPatternException)
      else
        AcceptedPathHasIds(p);
        var ids := PathIds(p).value;
        if !TableExists(tables, Client(ids.project, DEFAULT_CREDENTIALS), ids.dataset, ids.table) then
          Some(GBQTableNotExist)
        else None
  }

  /** The `data_frame` setter: None and data frames pass; anything else
      raises NotPandasDFException. */
  function DataFrameError(v: PyValue): (r: Option<Error>)
    ensures r == None <==> v == PyNone || v.PyDataFrame?
    ensures r != None ==> r == Some(NotPandasDFException)
  {
    if v != PyNone && !v.PyDataFrame? then Some(NotPandasDFException) else None
  }

  /** What `__init__` raises, in its order: the count, then the three
      setters. */
  function SourceChecks(csvLocalPath: Option<string>, bigqueryPath: Option<string>, dataFrame: PyValue,
                        files: set<string>, tables: set<string>): seq<Option<Error>>
  {
    [SourcesError(csvLocalPath, bigqueryPath, dataFrame), CsvPathError(csvLocalPath, files),
     BigqueryPathError(bigqueryPath, tables), DataFrameError(dataFrame)]
  }

  function DataSourceInitError(csvLocalPath: Option<string>, bigqueryPath: Option<string>, dataFrame: PyValue,
                               files: set<string>, tables: set<string>): Option<Error>
  {
    FirstError(SourceChecks(csvLocalPath, bigqueryPath, dataFrame, files, tables))
  }

  /** The number of sources is checked before any source is: two sources
      are refused even when both are valid. */
  lemma CountCheckedFirst(csvLocalPath: Option<string>, bigqueryPath: Option<string>, dataFrame: PyValue,
                          files: set<string>, tables: set<string>)
    requires SourcesError(csvLocalPath, bigqueryPath, dataFrame) != None
    ensures DataSourceInitError(csvLocalPath, bigqueryPath, dataFrame, files, tables) ==
              Some(WrongNumberOfDataSourcesException)
  {
    FirstErrorIsFirstFailure(SourceChecks(csvLocalPath, bigqueryPath, dataFrame, files, tables), 0);
  }

  class DataSource {
    var csvLocalPath: Option<string>
    var bigqueryPath: Option<string>
    var dataFrame: PyValue
    var dataSourceType: Option<string>
    /** The warehouse client the path setter opens. */
    var gbq: Option<Client>

    /** An object before `__init__` has run. */
    constructor ()
      ensures csvLocalPath == None && bigqueryPath == None && dataFrame == PyNone
      ensures dataSourceType == None && gbq == None
    {
      csvLocalPath, bigqueryPath, dataFrame := None, None, PyNone;
      dataSourceType, gbq := None, None;
    }

    /** The sources stored as given. */
    ghost predicate Holds(csvLocalPath: Option<string>, bigqueryPath: Option<string>, dataFrame: PyValue)
      reads this`csvLocalPath, this`bigqueryPath, this`dataFrame
    {
      this.csvLocalPath == csvLocalPath && this.bigqueryPath == bigqueryPath && this.dataFrame == dataFrame
    }

    /** The client the path setter opens for a given path: for the path's
        first field, with the hard-coded credentials. */
    static function ClientFor(bigqueryPath: string): (r: Option<Client>)
      ensures Search(bigqueryPath) ==> r.Some? && r.value.credentials == DEFAULT_CREDENTIALS
    {
      if Search(bigqueryPath) then
        AcceptedPathHasIds(bigqueryPath);
        Some(Client(PathIds(bigqueryPath).value.project, DEFAULT_CREDENTIALS))
      else None
    }

    /** The `csv_local_path` setter: the value is stored only when it
        passes. */
    method SetCsvLocalPath(v: Option<string>, files: set<string>) returns (err: Option<Error>)
      modifies this`csvLocalPath
      ensures err == CsvPathError(v, files)
      ensures csvLocalPath == if err == None then v else old(csvLocalPath)
    {
      if v.Some? {
        if v.value !in files {
          return Some(CSVWrongPathException);
        }
        if !EndsWith(v.value, ".csv") {
          return Some(CSVWrongSuffixException);
        }
      }
      csvLocalPath := v;
      err := None;
    }

    /** The `bigquery_path` setter: a path that passes the search opens the
        client before its table is looked up; the value is stored only
        when it passes. */
    method SetBigqueryPath(v: Option<string>, tables: set<string>) returns (err: Option<Error>)
      modifies this`bigqueryPath, this`gbq
      ensures err == BigqueryPathError(v, tables)
      ensures bigqueryPath == if err == None then v else old(bigqueryPath)
      ensures gbq == if v.Some? && Search(v.value) then ClientFor(v.value) else old(gbq)
    {
      if v.Some? {
        if !Search(v.value) {
          return Some(GBQWrongPathPatternException);
        }
        AcceptedPathHasIds(v.value);
        var ids := PathIds(v.value).value;
        var client := Client(ids.project, DEFAULT_CREDENTIALS);
        gbq := Some(client);
        if !TableExists(tables, client, ids.dataset, ids.table) {
          return Some(GBQTableNotExist);
        }
      }
      bigqueryPath := v;
      err := None;
    }

    /** The `data_frame` setter: the value is stored only when it passes. */
    method SetDataFrame(v: PyValue) returns (err: Option<Error>)
      modifies this`dataFrame
      ensures err == DataFrameError(v)
      ensures dataFrame == if err == None then v else old(dataFrame)
    {
      if v != PyNone && !v.PyDataFrame? {
        return Some(NotPandasDFException);
      }
      dataFrame := v;
      err := None;
    }

    /** The count, then the three setters, in `__init__`'s order; the first
        that raises stops the rest. */
    method SetSources(csvLocalPath: Option<string>, bigqueryPath: Option<string>, dataFrame: PyValue,
                      files: set<string>, tables: set<string>)
      returns (err: Option<Error>)
      modifies this`csvLocalPath, this`bigqueryPath, this`dataFrame, this`gbq
      ensures err == DataSourceInitError(csvLocalPath, bigqueryPath, dataFrame, files, tables)
      ensures err == None ==> Holds(csvLocalPath, bigqueryPath, dataFrame)
      ensures err == None ==> gbq == if bigqueryPath.Some? then ClientFor(bigqueryPath.value) else old(gbq)
    {
      ghost var checks := SourceChecks(csvLocalPath, bigqueryPath, dataFrame, files, tables);
      err := SourcesError(csvLocalPath, bigqueryPath, dataFrame);
      if err != None { FirstErrorIsFirstFailure(checks, 0); return; }
      err := SetCsvLocalPath(csvLocalPath, files);
      if err != None { FirstErrorIsFirstFailure(checks, 1); return; }
      err := SetBigqueryPath(bigqueryPath, tables);
      if err != None { FirstErrorIsFirstFailure(checks, 2); return; }
      err := SetDataFrame(dataFrame);
      if err != None { FirstErrorIsFirstFailure(checks, 3); return; }
    }

    /** `__init__` as written: after the setters pass, the source type and
        the client the path setter opened are reset to None. */
    method InitAsWritten(csvLocalPath: Option<string>, bigqueryPath: Option<string>, dataFrame: PyValue,
                         files: set<string>, tables: set<string>)
      returns (err: Option<Error>)
      modifies this`csvLocalPath, this`bigqueryPath, this`dataFrame, this`dataSourceType, this`gbq
      ensures err == DataSourceInitError(csvLocalPath, bigqueryPath, dataFrame, files, tables)
      ensures err == None ==> Holds(csvLocalPath, bigqueryPath, dataFrame) && dataSourceType == None && gbq == None
    {
      err := SetSources(csvLocalPath, bigqueryPath, dataFrame, files, tables);
      if err != None {
        return;
      }
      dataSourceType, gbq := None, None;
    }

    /** `__init__` as intended: the client starts out as None and the one
        the path setter opens is kept. */
    method Init(csvLocalPath: Option<string>, bigqueryPath: Option<string>, dataFrame: PyValue,
                files: set<string>, tables: set<string>)
      returns (err: Option<Error>)
      modifies this`csvLocalPath, this`bigqueryPath, this`dataFrame, this`dataSourceType, this`gbq
      ensures err == DataSourceInitError(csvLocalPath, bigqueryPath, dataFrame, files, tables)
      ensures err == None ==>
                Holds(csvLocalPath, bigqueryPath, dataFrame) && dataSourceType == None &&
                gbq == if bigqueryPath.Some? then ClientFor(bigqueryPath.value) else None
    {
      dataSourceType, gbq := None, None;
      err := SetSources(csvLocalPath, bigqueryPath, dataFrame, files, tables);
    }
  }

  /** A valid warehouse path as the only source builds, and the client
      then exists only when `__init__` keeps it. */
  lemma WarehouseSourceAccepted(p: string, d: string, t: string, tables: set<string>)
    requires '.' !in p && '.' !in d && '.' !in t && Search(TablePath(p, d, t))
    requires TablePath(p, d, t) in tables
    ensures DataSourceInitError(None, Some(TablePath(p, d, t)), PyNone, {}, tables) == None
    ensures DataSource.ClientFor(TablePath(p, d, t)) == Some(Client(p, DEFAULT_CREDENTIALS))
  {
    PathIdsRoundTrip(p, d, t);
    ExactlyOneSource(None, Some(TablePath(p, d, t)), PyNone);
  }
}
