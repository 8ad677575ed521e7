/**
 * The BigQuery data source: a service-account credentials path, checked to
 * be an existing `.json` file, and a `project.dataset.table` path, checked
 * against the pattern and against the warehouse before it is stored. The
 * file system and the warehouse are given as the sets of existing files
 * and existing table paths.
 */
module BigQueryData {
  import opened Python
  import opened Text
  import opened GbqPath

  /** The `sa_path` setter: None, a path that is not an existing file, and
      a file whose name does not end in `.json` all raise
      WrongServiceAccountPathException. */
  function SaPathError(v: Option<string>, files: set<string>): (r: Option<Error>)
    ensures r == None <==> v.Some? && v.value in files && EndsWith(v.value, ".json")
    ensures r != None ==> r == Some(WrongServiceAccountPathException)
  {
    match v
    case None => Some(WrongServiceAccountPathException)
    case Some(p) =>
      if p !in files then Some(WrongServiceAccountPathException)
      else if !EndsWith(p, ".json") then Some(WrongServiceAccountPathException)
      else None
  }

  /** The `gbq_path` setter: None and a path the pattern search rejects
      raise GBQWrongPathPatternException; an accepted path whose table the
      client for its project cannot find raises GBQTableNotExistException. */
  function GbqPathError(v: Option<string>, credentials: string, tables: set<string>): (r: Option<Error>)
    ensures v.None? ==> r == Some(GBQWrongPathPatternException)
    ensures v.Some? && !Search(v.value) ==> r == Some(GBQWrongPathPatternException)
    ensures v.Some? && Search(v.value) ==>
              PathIds(v.value).Some? &&
              var ids := PathIds(v.value).value;
              r == if TableExists(tables, Client(ids.project, credentials), ids.dataset, ids.table) then None
                   else Some(GBQTableNotExistException)
  {
    match v
    case None => Some(GBQWrongPathPatternException)
    case Some(p) =>
      if !Search(p) then Some(GBQWrongPathPatternException)
      else
        AcceptedPathHasIds(p);
        var ids := PathIds(p).value;
        if !TableExists(tables, Client(ids.project, credentials), ids.dataset, ids.table) then
          Some(GBQTableNotExistException)
        else None
  }

  /** A path is accepted exactly when it passes the search and the table
      it names exists; the test for existence reads the identifiers from
      the path's first three fields. */
  lemma GbqPathAccepted(v: Option<string>, credentials: string, tables: set<string>)
    ensures GbqPathError(v, credentials, tables) == None <==>
              v.Some? && Search(v.value) && PathIds(v.value).Some? &&
              TablePath(PathIds(v.value).value.project, PathIds(v.value).value.dataset,
                        PathIds(v.value).value.table) in tables
  {
    if v.Some? && Search(v.value) {
      AcceptedPathHasIds(v.value);
    }
  }

  /** A well-formed three-part path is accepted exactly when that very
      table exists. */
  lemma PlainPathAccepted(p: string, d: string, t: string, credentials: string, tables: set<string>)
    requires Search(TablePath(p, d, t))
    requires '.' !in p && '.' !in d && '.' !in t
    ensures GbqPathError(Some(TablePath(p, d, t)), credentials, tables) == None <==> TablePath(p, d, t) in tables
  {
    PathIdsRoundTrip(p, d, t);
  }

  /** What `__init__`'s two setter calls raise, in order: credentials
      first, then the path. */
  function GbqDataInitError(gbqPath: Option<string>, saPath: Option<string>,
                            files: set<string>, tables: set<string>): Option<Error>
  {
    match SaPathError(saPath, files)
    case Some(e) => Some(e)
    case None => GbqPathError(gbqPath, saPath.value, tables)
  }

  /** The credentials are checked before the path: with a bad credentials
      path, no path is looked at. */
  lemma CredentialsCheckedFirst(gbqPath: Option<string>, saPath: Option<string>, files: set<string>, tables: set<string>)
    ensures SaPathError(saPath, files) != None ==>
              GbqDataInitError(gbqPath, saPath, files, tables) == Some(WrongServiceAccountPathException)
    ensures GbqDataInitError(gbqPath, saPath, files, tables) == None <==>
              SaPathError(saPath, files) == None && GbqPathError(gbqPath, saPath.value, tables) == None
  {
  }

  /** Construction can succeed: an existing `.json` credentials file and
      an existing table. */
  lemma ConstructionCanSucceed()
    ensures GbqDataInitError(Some("p.d.t"), Some("key.json"), {"key.json"}, {"p.d.t"}) == None
  {
    assert ShortMatch("p.d.t", 1, 3);
    assert EndsWith("key.json", ".json");
    PathIdsRoundTrip("p", "d", "t");
    assert TablePath("p", "d", "t") == "p.d.t";
  }

  class GBQData {
    var saPath: string
    var gbqPath: string
    var projectId: Option<string>
    var datasetId: Option<string>
    var tableId: Option<string>
    var gbq: Option<Client>

    /** An object before `__init__` has run. */
    constructor ()
      ensures saPath == "" && gbqPath == ""
      ensures projectId == None && datasetId == None && tableId == None && gbq == None
    {
      saPath, gbqPath := "", "";
      projectId, datasetId, tableId, gbq := None, None, None, None;
    }

    /** The `sa_path` setter: the path is stored only when it passes. */
    method SetSaPath(v: Option<string>, files: set<string>) returns (err: Option<Error>)
      modifies this`saPath
      ensures err == SaPathError(v, files)
      ensures saPath == if err == None then v.value else old(saPath)
    {
      if v.None? {
        return Some(WrongServiceAccountPathException);
      }
      if v.value !in files {
        return Some(WrongServiceAccountPathException);
      }
      if !EndsWith(v.value, ".json") {
        return Some(WrongServiceAccountPathException);
      }
      saPath := v.value;
      err := None;
    }

    /** The `gbq_path` setter. A path that passes the search sets the three
        identifiers and opens the client with the stored credentials before
        the table is looked up, so they are set even when the table is
        missing; the path itself is stored only after every check. */
    method SetGbqPath(v: Option<string>, tables: set<string>) returns (err: Option<Error>)
      modifies this`gbqPath, this`projectId, this`datasetId, this`tableId, this`gbq
      ensures err == GbqPathError(v, saPath, tables)
      ensures gbqPath == if err == None then v.value else old(gbqPath)
      ensures if v.Some? && Search(v.value) then
                PathIds(v.value).Some? &&
                var ids := PathIds(v.value).value;
                projectId == Some(ids.project) && datasetId == Some(ids.dataset) && tableId == Some(ids.table) &&
                gbq == Some(Client(ids.project, saPath))
              else
                projectId == old(projectId) && datasetId == old(datasetId) && tableId == old(tableId) &&
                gbq == old(gbq)
    {
      if v.None? {
        return Some(GBQWrongPathPatternException);
      }
      if !Search(v.value) {
        return Some(GBQWrongPathPatternException);
      }
      AcceptedPathHasIds(v.value);
      var ids := PathIds(v.value).value;
      projectId, datasetId, tableId := Some(ids.project), Some(ids.dataset), Some(ids.table);
      var client := Client(ids.project, saPath);
      gbq := Some(client);
      if !TableExists(tables, client, ids.dataset, ids.table) {
        return Some(GBQTableNotExistException);
      }
      gbqPath := v.value;
      err := None;
    }

    /** `__init__` as written: after both setters pass, the identifiers
        and the client they set up are reset to None. */
    method InitAsWritten(gbqPath: Option<string>, saPath: Option<string>, files: set<string>, tables: set<string>)
      returns (err: Option<Error>)
      modifies this
      ensures err == GbqDataInitError(gbqPath, saPath, files, tables)
      ensures err == None ==>
                this.saPath == saPath.value && this.gbqPath == gbqPath.value &&
                projectId == None && datasetId == None && tableId == None && gbq == None
    {
      err := SetSaPath(saPath, files);
      if err != None {
        return;
      }
      err := SetGbqPath(gbqPath, tables);
      if err != None {
        return;
      }
      projectId, datasetId, tableId, gbq := None, None, None, None;
    }

    /** `__init__` as intended: the identifiers and the client set up by
        the path setter are kept, naming the path's first three fields and
        the stored credentials. */
    method Init(gbqPath: Option<string>, saPath: Option<string>, files: set<string>, tables: set<string>)
      returns (err: Option<Error>)
      modifies this
      ensures err == GbqDataInitError(gbqPath, saPath, files, tables)
      ensures err == None ==>
                gbqPath.Some? && PathIds(gbqPath.value).Some? &&
                var ids := PathIds(gbqPath.value).value;
                this.saPath == saPath.value && this.gbqPath == gbqPath.value &&
                projectId == Some(ids.project) && datasetId == Some(ids.dataset) && tableId == Some(ids.table) &&
                gbq == Some(Client(ids.project, saPath.value)) &&
                TablePath(ids.project, ids.dataset, ids.table) in tables
    {
      err := SetSaPath(saPath, files);
      if err != None {
        return;
      }
      err := SetGbqPath(gbqPath, tables);
    }
  }
}
