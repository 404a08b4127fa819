/**
 * The data store of app/services/data_service.py: one table of users,
 * reloaded from the backing CSV file whenever there is no connection yet or the
 * file's modification time has changed, and queried in three ways.
 *
 * The file is an input of every call: whether it exists, its modification
 * time (only ever compared for equality, so an `int`), and what loading it
 * would produce.
 */
module DataService {
  import opened Wrappers
  import opened Models
  import opened Errors
  import opened Queries

  /** `_conn`: none yet, a fresh in-memory database without the table, or a loaded table. */
  datatype Connection = NoConnection | EmptyDatabase | Loaded(users: seq<User>)

  /** What `CREATE TABLE users AS SELECT * FROM read_csv_auto(...)` would do with the file now. */
  datatype LoadOutcome = Parsed(rows: seq<User>) | ParseFailed(reason: string)

  datatype SourceFile = SourceFile(present: bool, mtime: int, load: LoadOutcome)

  /** The two fields the reload policy reads and writes. */
  datatype Store = Store(conn: Connection, lastMtime: int)

  /** One `_ensure_connection` call: the new fields, whether it reloaded, and what it raised. */
  datatype Refreshed = Refreshed(store: Store, reloaded: bool, failure: Option<Exception>)

  /** The store's log lines. */
  datatype ServiceLog = ReloadingInfo | InitialConnectionFailed(error: string)

  /** The dictionary `get_users` returns. */
  datatype UserPage = UserPage(data: seq<User>, total: int, page: int, pageSize: int)

  /** The fields as `__init__` sets them before the first load. */
  const InitialStore: Store := Store(NoConnection, 0)

  /** The `DataLoadError` for a missing file; its message ends with the path. */
  function FileNotFound(path: string): (e: Exception)
    ensures e.kind == DataLoadError
    ensures |path| <= |e.message| && e.message[|e.message| - |path|..] == path
  {
    Exception(DataLoadError, "CSV file not found at " + path)
  }

  /** The `DataLoadError` for a failed load; its message ends with the engine's `str(e)`. */
  function LoadFailed(reason: string): (e: Exception)
    ensures e.kind == DataLoadError
    ensures |reason| <= |e.message| && e.message[|e.message| - |reason|..] == reason
  {
    Exception(DataLoadError, "Failed to load CSV into DuckDB: " + reason)
  }

  /** What DuckDB raises for a query on a database that has no `users` table. */
  const MissingTable: Exception := Exception(CatalogException, "Catalog Error: Table with name users does not exist!")

  /** What Python raises for `None.execute(...)`. */
  const NoneConnection: Exception := Exception(AttributeError, "'NoneType' object has no attribute 'execute'")

  /**
   * The reload condition of `_ensure_connection`. With an unchanged time it
   * holds only while there is no connection at all: an empty database left
   * by a failed load is not stale.
   */
  predicate Stale(s: Store, mtime: int)
    ensures mtime == s.lastMtime ==> (Stale(s, mtime) <==> s.conn.NoConnection?)
    ensures mtime != s.lastMtime ==> Stale(s, mtime)
  {
    s.conn.NoConnection? || mtime != s.lastMtime
  }

  /** `_ensure_connection` as a function of the fields and the file. */
  function Refresh(s: Store, f: SourceFile, path: string): (r: Refreshed)
    ensures r.reloaded <==> f.present && Stale(s, f.mtime)
    ensures !r.reloaded ==> r.store == s
    ensures r.failure.None? ==> r.store.lastMtime == f.mtime && !r.store.conn.NoConnection?
    ensures r.failure.Some? ==> r.store.lastMtime == s.lastMtime && r.failure.value.kind == DataLoadError
    ensures r.failure.Some? <==> !f.present || (Stale(s, f.mtime) && f.load.ParseFailed?)
  {
    if !f.present then Refreshed(s, false, Some(FileNotFound(path)))
    else if !Stale(s, f.mtime) then Refreshed(s, false, None)
    else match f.load
      case Parsed(rows) => Refreshed(Store(Loaded(rows), f.mtime), true, None)
      case ParseFailed(reason) => Refreshed(Store(EmptyDatabase, s.lastMtime), true, Some(LoadFailed(reason)))
  }

  /** The `Reloading data source from CSV (DuckDB)` line: written once per reload, and only then. */
  function ReloadLog(r: Refreshed): (log: seq<ServiceLog>)
    ensures |log| <= 1
    ensures log != [] <==> r.reloaded
    ensures forall i :: 0 <= i < |log| ==> log[i] == ReloadingInfo
  {
    if r.reloaded then [ReloadingInfo] else []
  }

  /** A missing file raises `DataLoadError` and touches neither field. */
  lemma MissingFileFails(s: Store, f: SourceFile, path: string)
    requires !f.present
    ensures Refresh(s, f, path) == Refreshed(s, false, Some(FileNotFound(path)))
  {
  }

  /** A successful check followed by another with the same file does not reload again. */
  lemma RefreshIdempotent(s: Store, f: SourceFile, path: string)
    requires Refresh(s, f, path).failure.None?
    ensures var s' := Refresh(s, f, path).store;
            Refresh(s', f, path) == Refreshed(s', false, None)
  {
  }

  /** A reload that succeeds installs the new table and the file's time. */
  lemma SuccessfulReload(s: Store, f: SourceFile, path: string)
    requires f.present && Stale(s, f.mtime) && f.load.Parsed?
    ensures Refresh(s, f, path) == Refreshed(Store(Loaded(f.load.rows), f.mtime), true, None)
  {
  }

  /**
   * A reload that fails raises `DataLoadError`, keeps the old modification
   * time and has already replaced the connection with an empty database:
   * the previous table is gone. While the file keeps a time different from
   * the kept one, the next call reloads again.
   */
  lemma FailedReloadDropsTableAndRetries(s: Store, f: SourceFile, path: string)
    requires f.present && Stale(s, f.mtime) && f.load.ParseFailed?
    ensures var r := Refresh(s, f, path);
            r.store == Store(EmptyDatabase, s.lastMtime) && r.failure == Some(LoadFailed(f.load.reason))
    ensures f.mtime != s.lastMtime ==> Refresh(Refresh(s, f, path).store, f, path).reloaded
  {
  }

  /** `LIMIT page_size OFFSET (page-1)*page_size` and `COUNT(*)` on the connection. */
  function UsersPage(conn: Connection, page: int, pageSize: int): (r: Result<UserPage, Exception>)
    requires page >= 1 && pageSize >= 1
    ensures r.Ok? <==> conn.Loaded?
    ensures conn.EmptyDatabase? ==> r == Err(MissingTable)
    ensures conn.Loaded? ==>
      var t, offset := conn.users, (page - 1) * pageSize;
      && r.value.total == |t| && r.value.page == page && r.value.pageSize == pageSize
      && |r.value.data| == Min(pageSize, Max(0, |t| - offset))
      && forall i :: 0 <= i < |r.value.data| ==> r.value.data[i] == t[offset + i]
  {
    match conn
    case NoConnection => Err(NoneConnection)
    case EmptyDatabase => Err(MissingTable)
    case Loaded(t) => Ok(UserPage(Paginate(t, PageOffset(page, pageSize), pageSize), |t|, page, pageSize))
  }

  /** `WHERE id = ?` on the connection: the first matching row, or `None` (not an error). */
  function UserById(conn: Connection, id: int): (r: Result<Option<User>, Exception>)
    ensures r.Ok? <==> conn.Loaded?
    ensures conn.EmptyDatabase? ==> r == Err(MissingTable)
    ensures conn.Loaded? ==>
      && (r.value.None? <==> forall i :: 0 <= i < |conn.users| ==> conn.users[i].id != id)
      && (r.value.Some? ==> r.value.value in conn.users && r.value.value.id == id)
  {
    match conn
    case NoConnection => Err(NoneConnection)
    case EmptyDatabase => Err(MissingTable)
    case Loaded(t) => Ok(FirstWithId(t, id))
  }

  /** The three-way ILIKE with `LIMIT ?` on the connection. */
  function MatchingUsers(conn: Connection, query: string, limit: nat): (r: Result<seq<User>, Exception>)
    ensures r.Ok? <==> conn.Loaded?
    ensures conn.EmptyDatabase? ==> r == Err(MissingTable)
    ensures conn.Loaded? ==>
      && |r.value| == Min(limit, |Matching(conn.users, query)|)
      && r.value == Matching(conn.users, query)[..|r.value|]
      && (|Matching(conn.users, query)| <= limit ==> r.value == Matching(conn.users, query))
      && forall i :: 0 <= i < |r.value| ==> r.value[i] in conn.users && RowMatches(r.value[i], query)
  {
    match conn
    case NoConnection => Err(NoneConnection)
    case EmptyDatabase => Err(MissingTable)
    case Loaded(t) => Ok(SearchRows(t, query, limit))
  }

  /**
   * The code keeps no old table across a failed load: if the first load
   * fails while the file's time equals the initial `_last_mtime` of 0, the
   * next call sees a connection and an unchanged time, does not retry, and
   * the query fails on the missing table.
   */
  lemma FailedLoadWithUnchangedTimeIsNotRetried(path: string, reason: string, page: int, pageSize: int)
    requires page >= 1 && pageSize >= 1
    ensures var f := SourceFile(true, 0, ParseFailed(reason));
            var first := Refresh(InitialStore, f, path);
            var second := Refresh(first.store, f, path);
            && first.failure == Some(LoadFailed(reason))
            && !second.reloaded && second.failure.None?
            && UsersPage(second.store.conn, page, pageSize) == Err(MissingTable)
  {
  }

  class DuckDBService {
    const filePath: string
    var conn: Connection
    var lastMtime: int
    var log: seq<ServiceLog>

    function State(): Store
      reads this
    {
      Store(conn, lastMtime)
    }

    /** The initial load is attempted and its failure only logged. */
    constructor (filePath: string, file: SourceFile)
      ensures this.filePath == filePath
      ensures var r := Refresh(InitialStore, file, filePath);
              && State() == r.store
              && log == ReloadLog(r) + (if r.failure.Some? then [InitialConnectionFailed(r.failure.value.message)] else [])
    {
      this.filePath := filePath;
      conn := NoConnection;
      lastMtime := 0;
      log := [];
      new;
      var failure := EnsureConnection(file);
      if failure.Some? {
        log := log + [InitialConnectionFailed(failure.value.message)];
      }
    }

    /** `_ensure_connection`: `failure` is the `DataLoadError` it raises, if any. */
    method EnsureConnection(file: SourceFile) returns (failure: Option<Exception>)
      modifies this
      ensures var r := Refresh(old(State()), file, filePath);
              State() == r.store && failure == r.failure && log == old(log) + ReloadLog(r)
    {
      if !file.present {
        return Some(FileNotFound(filePath));
      }
      var currentMtime := file.mtime;
      if conn.NoConnection? || currentMtime != lastMtime {
        log := log + [ReloadingInfo];
        conn := EmptyDatabase;
        match file.load {
          case Parsed(rows) =>
            conn := Loaded(rows);
            lastMtime := currentMtime;
          case ParseFailed(reason) =>
            return Some(LoadFailed(reason));
        }
      }
      return None;
    }

    /** `get_users`: the freshness check, then one page and the total count. */
    method GetUsers(file: SourceFile, page: int, pageSize: int) returns (r: Result<UserPage, Exception>)
      requires page >= 1 && pageSize >= 1
      modifies this
      ensures var rf := Refresh(old(State()), file, filePath);
              && State() == rf.store && log == old(log) + ReloadLog(rf)
              && r == if rf.failure.Some? then Err(rf.failure.value) else UsersPage(conn, page, pageSize)
      ensures r.Ok? ==> lastMtime == file.mtime
      ensures r != Err(NoneConnection)
    {
      var failure := EnsureConnection(file);
      if failure.Some? {
        return Err(failure.value);
      }
      r := UsersPage(conn, page, pageSize);
    }

    /** `get_user_by_id`: the freshness check, then the lookup. */
    method GetUserById(file: SourceFile, userId: int) returns (r: Result<Option<User>, Exception>)
      modifies this
      ensures var rf := Refresh(old(State()), file, filePath);
              && State() == rf.store && log == old(log) + ReloadLog(rf)
              && r == if rf.failure.Some? then Err(rf.failure.value) else UserById(conn, userId)
      ensures r.Ok? ==> lastMtime == file.mtime
      ensures r != Err(NoneConnection)
    {
      var failure := EnsureConnection(file);
      if failure.Some? {
        return Err(failure.value);
      }
      r := UserById(conn, userId);
    }

    /** `search_users`: the freshness check, then the bound-parameter search. */
    method SearchUsers(file: SourceFile, query: string, limit: nat) returns (r: Result<seq<User>, Exception>)
      modifies this
      ensures var rf := Refresh(old(State()), file, filePath);
              && State() == rf.store && log == old(log) + ReloadLog(rf)
              && r == if rf.failure.Some? then Err(rf.failure.value) else MatchingUsers(conn, query, limit)
      ensures r.Ok? ==> lastMtime == file.mtime
      ensures r != Err(NoneConnection)
    {
      var failure := EnsureConnection(file);
      if failure.Some? {
        return Err(failure.value);
      }
      r := MatchingUsers(conn, query, limit);
    }
  }
}
