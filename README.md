# User-lookup tool server: a Dafny model of its core

The system is a small read-only service. It exposes three tools over one table of users: `list_users`, `get_user_by_id` and `search_users`. The table is loaded from a CSV file into an in-memory DuckDB database. Every tool call is wrapped in audit logging and metrics, and a bearer token guards the transport.

This project models three parts of that system and proves their properties:

- **The data store** (`DuckDBService`, `data_service.dfy`). A class with the fields `conn`, `lastMtime` and a log.
  - `EnsureConnection` checks freshness. Reloads follow the pure function `Refresh`.
  - Each query method runs the freshness check first. It then evaluates one pure sequence function on the loaded table: `Paginate` for `LIMIT/OFFSET`, `FirstWithId` for `WHERE id = ?`, and `SearchRows` for the three-way `ILIKE` (`queries.dfy`).
  - SQL `LIKE` with `%` and `_` is modelled outright (`text.dfy`). For queries without wildcards it is proved equal to case-insensitive substring search.
- **The audit and auth code** (`security.dfy`, `telemetry.dfy`).
  - Parameter masking is a loop proved against the specification function `Masked`.
  - `VerifyToken` is the token check, with the auth-failure counter.
  - `AuditedCall` is the `audit_log` wrapper. It feeds a `Metrics` class made of labelled counter maps, and an `AuditLog` class holding a list of records.
- **The tool facade** (`tools.dfy`, `server.dfy`).
  - Pure functions map what the store returned or raised to the envelope a tool returns.
  - The declared parameter bounds are stated as predicates.
  - `Server` wires each tool to the shared store and wraps it in `AuditedCall` under its own name.

Inputs that are not code stand as parameters:
- The backing file, given as a `SourceFile`: whether it exists, its modification time, and what loading it would produce.
- The configured API token.
- Pydantic's row validation, given as `isValid: User -> bool`.

Four behaviours of the code are worth stating, and the model follows the code in each:
- **A failed reload.** Line 35 of `app/services/data_service.py` replaces the connection before the load at line 36. So the old table is not kept when a reload fails: the connection becomes an empty database (`EmptyDatabase`). If the file's modification time later equals the kept `_last_mtime`, the check does not retry, and queries fail on the missing table. `FailedLoadWithUnchangedTimeIsNotRetried` exhibits one such sequence of calls.
- **Error kinds.** A missing file and a failed load both raise `DataLoadError`. `InvalidParameterError` is never raised.
- **Too-short queries.** A query shorter than 2 characters is rejected by the declared bound `min_length=2` before the tool body runs. It never produces an error envelope from the tool, so here the bound is a precondition.
- **The wrapper.** `audit_log` never converts failures. It records them and re-raises. The conversion to envelopes happens in the tool bodies.

## Model

| member | source | states |
|---|---|---|
| `Text.Lower` | app/core/security.py:27 | lowering keeps the length and folds each character by itself (ASCII letters only) |
| `Text.SearchPattern` | app/services/data_service.py:76 | the pattern is the query embedded verbatim, unescaped, between two `%` |
| `Text.Like` | app/services/data_service.py:76-81 | `LIKE` with `%` and `_`; a pattern without wildcards matches exactly the string equal to it |
| `Text.ILike` | app/services/data_service.py:81 | `ILIKE` is `LIKE` after lowering both sides; a wildcard-free pattern matches exactly the strings equal to it up to letter case |
| `Text.LikeSearchIsContains` | app/services/data_service.py:76-81 | for a query without `%` or `_`, `LIKE '%q%'` holds exactly when `q` is a substring |
| `Text.ILikeSearchIsContains` | app/services/data_service.py:76-84 | for a query without wildcards, `ILIKE '%q%'` holds exactly when lower(q) occurs in lower(field) |
| `Text.UnderscoresMatchAnyLongString` | app/services/data_service.py:76 | wildcards in the query are not escaped: the query `__` matches every string of two or more characters |
| `Queries.SearchUnderscoresMatchLongFirstName` | app/services/data_service.py:76-81 | the search for `__` matches every row whose first name has at least two characters |
| `Queries.Paginate` | app/services/data_service.py:46-53 | `LIMIT n OFFSET o` returns `min(n, max(0, total - o))` rows, the i-th being table row `o + i` |
| `Queries.PageOffset` | app/services/data_service.py:46 | page `p` starts at a multiple of the page size, `p - 1` pages in; only page 1 starts at row 0 |
| `Queries.AdjacentPagesConcatenate` | app/services/data_service.py:46-53 | two consecutive pages read the same rows as one page of the combined size |
| `Queries.RowOnItsPage` | app/services/data_service.py:46-53 | every table row appears on page `k / page_size + 1`, at its offset within that page |
| `Queries.TwentyFiveRowsExample` | app/services/data_service.py:43-60 | with ids 1..25, page 3 of size 10 holds ids 21..25 and page 4 is empty |
| `Queries.FirstWithId` | app/services/data_service.py:65-71 | the lookup is `None` exactly when no row has the id; otherwise it returns the first row carrying it |
| `Queries.UniqueIdLookup` | app/services/data_service.py:65-71 | with unique ids, looking up a row's id returns that row |
| `Queries.RowMatches` | app/services/data_service.py:76-81 | for a wildcard-free query, a row matches exactly when lower(query) occurs in its lowered first name, last name or email |
| `Queries.Matching` | app/services/data_service.py:78-81 | the WHERE clause returns only matching table rows, and every matching row is among them |
| `Queries.MatchingAppend` | app/services/data_service.py:78-81 | the filter distributes over concatenation, so the result keeps table order and each row's multiplicity |
| `Queries.MatchingSingle` | app/services/data_service.py:78-81 | a single row is kept exactly when it matches |
| `Queries.SearchRows` | app/services/data_service.py:76-85 | the search returns the first `min(limit, matches)` matching rows, in table order |
| `Queries.NoMatchingRowsSearchEmpty` | app/services/data_service.py:78-85 | when no row matches, the search is empty |
| `Queries.InjectionAttemptFindsNothing` | app/services/data_service.py:76-85 | the query `' OR '1'='1` returns nothing unless some field contains that text (the query is bound as data) |
| `Queries.SearchHitsContainQuery` | app/services/data_service.py:76-85 | each row returned for a wildcard-free query contains it, ignoring case, in first name, last name or email |
| `Queries.SearchReturnsAllWhenUnderLimit` | app/services/data_service.py:78-85 | with no more matches than `limit`, every match is returned |
| `DataService.FileNotFound` | app/services/data_service.py:27-28 | a missing file raises `DataLoadError` whose message ends with the path |
| `DataService.LoadFailed` | app/services/data_service.py:40-41 | a failed load raises `DataLoadError` whose message ends with the underlying error's text |
| `DataService.Stale` | app/services/data_service.py:31 | with an unchanged mtime a reload is due only when there is no connection at all (an empty database left by a failed load is not reloaded); a changed mtime always makes it due |
| `DataService.ReloadLog` | app/services/data_service.py:32 | the reload message is logged once per reload and never otherwise |
| `DataService.Refresh` | app/services/data_service.py:25-41 | reloads exactly when the file exists and either the connection is `None` or the mtime differs; success leaves `lastMtime` at the file's mtime, failure keeps the old one and is a `DataLoadError` |
| `DataService.MissingFileFails` | app/services/data_service.py:27-28 | a missing file raises `DataLoadError` and changes neither field |
| `DataService.RefreshIdempotent` | app/services/data_service.py:30-31 | repeating a successful check with an unchanged file does not reload and changes nothing |
| `DataService.SuccessfulReload` | app/services/data_service.py:33-39 | a successful reload installs the new table and the current mtime |
| `DataService.FailedReloadDropsTableAndRetries` | app/services/data_service.py:33-41 | a failed reload leaves an empty database and the old mtime; the next call with a changed-time file reloads again |
| `DataService.UsersPage` | app/services/data_service.py:46-60 | on a loaded table: the page rows by offset, `total` the full count, `page` and `page_size` echoed; a missing table raises |
| `DataService.UserById` | app/services/data_service.py:65-71 | on a loaded table a miss is `None`, never an error; a hit is a table row with that id |
| `DataService.MatchingUsers` | app/services/data_service.py:76-86 | on a loaded table: at most `limit` rows, a prefix of the matches, all of them when under the limit |
| `DataService.FailedLoadWithUnchangedTimeIsNotRetried` | app/services/data_service.py:31-41 | a failed first load at mtime 0 is not retried by the next call, whose query then fails on the missing table |
| `DataService.DuckDBService.constructor` | app/services/data_service.py:13-23 | starts with no connection and `lastMtime = 0`, runs the check once, and only logs its failure |
| `DataService.DuckDBService.EnsureConnection` | app/services/data_service.py:25-41 | the fields and the log change as `Refresh` says, and the method raises what `Refresh` raises |
| `DataService.DuckDBService.GetUsers` | app/services/data_service.py:43-60 | runs the query only after a successful check, so it never fails on a `None` connection; after success `lastMtime` is the file's mtime |
| `DataService.DuckDBService.GetUserById` | app/services/data_service.py:62-71 | runs the lookup only after a successful check, so it never fails on a `None` connection; after success `lastMtime` is the file's mtime |
| `DataService.DuckDBService.SearchUsers` | app/services/data_service.py:73-86 | runs the search only after a successful check, so it never fails on a `None` connection; after success `lastMtime` is the file's mtime |
| `Telemetry.Bumped` | app/core/telemetry.py:4-8 | incrementing a labelled counter raises that label's count by one and leaves every other label's count unchanged |
| `Telemetry.Metrics.constructor` | app/core/telemetry.py:4-17 | all three metrics start at zero |
| `Telemetry.Metrics.IncToolCall` | app/core/security.py:51 | one call counter goes up; the other metrics are untouched |
| `Telemetry.Metrics.ObserveLatency` | app/core/security.py:50 | one latency observation for the tool; the other metrics are untouched |
| `Telemetry.Metrics.IncAuthFailures` | app/core/security.py:36 | the auth-failure counter goes up by one; the other metrics are untouched |
| `Security.IsSensitive` | app/core/security.py:24-27 | every denylist entry, as written, is a sensitive key |
| `Security.Masked` | app/core/security.py:22-31 | the same keys as the input; denylisted keys map to `***`, all others keep their value |
| `Security.MaskSensitiveData` | app/core/security.py:22-31 | the loop builds a fresh map equal to `Masked` of the input (the input is a value, so it is untouched) |
| `Security.MaskIdempotent` | app/core/security.py:25-31 | masking twice equals masking once |
| `Security.SensitivityIgnoresCase` | app/core/security.py:24-27 | keys equal up to letter case are either both masked or both kept |
| `Security.CapitalisedEmailIsMasked` | app/core/security.py:24-28 | the key `Email` is masked |
| `Security.MaskExample` | app/core/security.py:22-31 | `{"email": "a@b.com", "page": 2}` is logged as `{"email": "***", "page": 2}` |
| `Security.VerifyToken` | app/core/security.py:33-38 | a mismatched credential fails with 401 and adds exactly 1 to the auth failures; a matching one is returned and the counter stays put |
| `Security.AuditedCall` | app/core/security.py:44-67 | returns or re-raises the wrapped outcome unchanged; success adds one latency observation, one success count and one masked success entry; failure adds only one error count and one masked entry with the message and type; no other tool's or status's counter moves |
| `Security.StatusOf` | app/core/security.py:51-60 | the `status` label is `success` exactly for a call that returned, `error` exactly for one that raised |
| `Security.RecordFor` | app/core/security.py:53-66 | the entry names the tool and carries the masked arguments; it is a success entry exactly when the call succeeded, and a failure entry carries `str(e)` and the class name |
| `Security.AuditLog.constructor` | app/core/security.py:13 | the audit log starts empty |
| `Security.AuditLog.Append` | app/core/security.py:53-66 | a log call appends exactly one record at the end |
| `Errors.TypeName` | app/core/exceptions.py:1-9 | the class name is one of `ToolError`, `DataLoadError`, `InvalidParameterError` exactly for the project's own classes |
| `Errors.TypeNameInjective` | app/core/security.py:64 | distinct classes give distinct `error_type` names |
| `Tools.DefaultsWithinBounds` | app/mcp/tools.py:15-49 | the defaults page 1, page size 10 (lines 16-17) and limit 5 (line 49) lie within the declared bounds |
| `Tools.ListUsersArgsValid` | app/mcp/tools.py:16-17 | the declared bounds `page >= 1` and `1 <= page_size <= 100`, under which the store's precondition holds |
| `Tools.SearchUsersArgsValid` | app/mcp/tools.py:48-49 | the declared bounds `len(query) >= 2` and `1 <= limit <= 20`: the query is never empty |
| `Tools.ActualPageSize` | app/mcp/tools.py:23 | the requested size capped at `PAGE_SIZE_MAX`: never above it, unchanged when within it |
| `Tools.ClampKeepsDeclaredSizes` | app/mcp/tools.py:17-23 | with the configured cap equal to the declared bound of 100, the cap never changes a valid size |
| `Models.Page` | app/models.py:12-17 | the page envelope carries the given fields, with `next_cursor` at its default `None` (as built at app/mcp/tools.py:26) |
| `Models.ErrorOnly` | app/models.py:19-21 | the error envelope carries the category, with `details` at its default `None` (as built at app/mcp/tools.py:40) |
| `Tools.ListUsersResponse` | app/mcp/tools.py:22-29 | a page whose rows, total, page, size come from the store and whose cursor is absent, exactly when the store succeeded and every row is valid; otherwise "Internal Error" with details |
| `Tools.GetUserResponse` | app/mcp/tools.py:37-43 | the user when found and valid; "User not found" without details on a miss; "Search Error" with `str(e)` on an exception |
| `Tools.SearchUsersResponse` | app/mcp/tools.py:52-57 | the store's rows as users, same order and length, exactly when all are valid; otherwise "Search Failed" with details |
| `Tools.MissIsNotFound` | app/mcp/tools.py:38-40 | a lookup miss on a loaded table yields `ErrorResponse("User not found")` with no details |
| `Server.MaskedWithoutSensitiveKeys` | app/core/security.py:26-30 | a map none of whose keys is on the denylist is logged unchanged |
| `Server.ListUsersParamsNotMasked` | app/mcp/tools.py:15-17 | the `list_users` arguments contain no sensitive key, so they are logged unchanged |
| `Server.GetUserParamsNotMasked` | app/mcp/tools.py:33-34 | the `get_user_by_id` argument is logged unchanged |
| `Server.SearchUsersParamsNotMasked` | app/mcp/tools.py:47-49 | the `search_users` arguments are logged unchanged |
| `Server.ListUsers` | app/mcp/tools.py:13-29 | asks the store for the capped page size with `page` unchanged; the wrapper always takes its success branch for `list_users` |
| `Server.GetUserById` | app/mcp/tools.py:31-43 | maps the store's lookup to the envelope; the wrapper always takes its success branch for `get_user_by_id` |
| `Server.SearchUsers` | app/mcp/tools.py:45-57 | maps the store's search to the envelope; the wrapper always takes its success branch for `search_users` |

## Left out

- DuckDB, `read_csv_auto` and pandas `to_dict` are foreign code. A load is the input `LoadOutcome`: a table of `User` rows, or a failure with its message. `LIMIT/OFFSET`, `COUNT(*)` and `WHERE` are sequence functions.
- `duckdb.connect(":memory:")` is assumed to succeed. A failure of the connect call itself, which would leave the old connection in place, is not modelled.
- A query without `ORDER BY` is taken to return rows in load order. Without `ORDER BY`, SQL promises no order.
- The text of DuckDB's missing-table error and of Python's `AttributeError` is written as a fixed message.
- `NULL` fields in the CSV are not modelled. Every field is a string and `id` is an integer.
- DataService.UsersPage: `page` and `page_size` are unbounded integers, but DuckDB binds `LIMIT` and `OFFSET` as 64-bit values. A `page` large enough that `(page - 1) * page_size` exceeds 2^63 - 1 is modelled as an ordinary (empty) page; whatever DuckDB raises for it is not modelled.
- DuckDB's handling of a negative `LIMIT` or `OFFSET` is not modelled. Instead, the store's `GetUsers` requires `page >= 1` and `page_size >= 1`, which its only caller guarantees through the declared bounds.
- Case folding covers ASCII letters only, in both `str.lower()` and `ILIKE`. Unicode folding is not modelled.
- Pydantic's validation is the parameter `isValid`, which stands for `EmailStr` and the field types. Its error text is the fixed constant `ValidationErrorText`.
- Tools.ListUsersResponse, Tools.GetUserResponse, Tools.SearchUsersResponse (and the `Server` methods built on them): a valid row is returned unchanged. Pydantic's `EmailStr` also normalises the address it accepts (it lower-cases the domain and reduces `Name <addr>` to `addr`), so the real tools can return an email that differs from the stored one. That normalisation is not modelled.
- JSON serialisation (`model_dump_json`, `json.dumps`) is not modelled. A tool returns the `ToolResponse` value that would be serialised.
- Argument validation and defaulting by the tool framework happen before a tool runs. The declared bounds are preconditions of the `Server` methods, and the defaults are constants.
- The tool framework is assumed to pass every argument by keyword. Only `int` and `str` argument values are modelled.
- `asyncio.Lock` has no counterpart because each store method is one atomic sequential method. Interleaving is not modelled.
- Timing is not modelled: `time.time()`, the duration, its rounding to `duration_ms`, and the value of a latency observation. Only the number of observations per tool is kept.
- Logging details are not modelled: log levels and filtering, the JSON formatter, and timestamps.
- The store and the wrapper write to the same `audit` logger. Here each keeps its own list of records.
- The key order of the masked dictionary is not kept, because a map has no order.
- Prometheus exposition is not modelled.
- `HTTPBearer`'s handling of a missing `Authorization` header is not modelled. Neither is FastAPI's dependency wiring, which runs `verify_token` before any tool. `VerifyToken` takes the presented credential as its input.
- `main.py` is not part of this model: the health and readiness routes, the lifespan hook's extra freshness check, SSE mounting, and the module-level store instance.
- Configuration loading from the environment is not modelled. `PAGE_SIZE_MAX = 100` and `PAGE_SIZE_DEFAULT = 10` are constants, and the file path and API token are parameters.
- The test `if not user_data` is the `None` test, because a row dictionary always has columns and so is never empty.
