/**
 * The three registered tools as app/mcp/tools.py declares them: each tool
 * body wrapped by `audit_log` under its own name, calling the one shared
 * store. The bodies never raise, so the wrapper always takes its success
 * branch.
 */
module Server {
  import opened Wrappers
  import opened Models
  import opened DataService
  import opened Telemetry
  import opened Security
  import opened Tools
  import opened Text

  function ListUsersParams(page: int, pageSize: int): map<string, Value>
  {
    map["page" := IntValue(page), "page_size" := IntValue(pageSize)]
  }

  function GetUserParams(userId: int): map<string, Value>
  {
    map["user_id" := IntValue(userId)]
  }

  function SearchUsersParams(query: string, limit: int): map<string, Value>
  {
    map["query" := StrValue(query), "limit" := IntValue(limit)]
  }

  /** A key that is already lower case and outside the denylist is not masked. */
  lemma {:induction false} PlainKeyNotSensitive(k: string)
    requires forall i :: 0 <= i < |k| ==> 'a' <= k[i] <= 'z' || k[i] == '_'
    requires k !in SensitiveKeys
    ensures !IsSensitive(k)
  {
    assert Lower(k) == k;
  }

  /** A map without sensitive keys is logged unchanged. */
  lemma MaskedWithoutSensitiveKeys(m: map<string, Value>)
    requires forall k :: k in m ==> !IsSensitive(k)
    ensures Masked(m) == m
  {
    var r := Masked(m);
    assert r.Keys == m.Keys;
    forall k | k in m ensures r[k] == m[k] { }
  }

  /** No tool has a sensitive parameter, so the audit log shows the arguments as given. */
  lemma ListUsersParamsNotMasked(page: int, pageSize: int)
    ensures Masked(ListUsersParams(page, pageSize)) == ListUsersParams(page, pageSize)
  {
    PlainKeyNotSensitive("page");
    PlainKeyNotSensitive("page_size");
    var m := ListUsersParams(page, pageSize);
    assert m.Keys == {"page", "page_size"};
    MaskedWithoutSensitiveKeys(m);
  }

  lemma GetUserParamsNotMasked(userId: int)
    ensures Masked(GetUserParams(userId)) == GetUserParams(userId)
  {
    PlainKeyNotSensitive("user_id");
    var m := GetUserParams(userId);
    assert m.Keys == {"user_id"};
    MaskedWithoutSensitiveKeys(m);
  }

  lemma SearchUsersParamsNotMasked(query: string, limit: int)
    ensures Masked(SearchUsersParams(query, limit)) == SearchUsersParams(query, limit)
  {
    PlainKeyNotSensitive("query");
    PlainKeyNotSensitive("limit");
    var m := SearchUsersParams(query, limit);
    assert m.Keys == {"query", "limit"};
    MaskedWithoutSensitiveKeys(m);
  }

  method ListUsers(svc: DuckDBService, metrics: Metrics, audit: AuditLog, file: SourceFile,
                   page: int, pageSize: int, isValid: User -> bool) returns (r: ToolResponse)
    requires ListUsersArgsValid(page, pageSize)
    modifies svc, metrics, audit
    ensures var rf := Refresh(old(svc.State()), file, svc.filePath);
            && svc.State() == rf.store && svc.log == old(svc.log) + ReloadLog(rf)
            && r == ListUsersResponse(
                      if rf.failure.Some? then Err(rf.failure.value)
                      else UsersPage(rf.store.conn, page, ActualPageSize(pageSize)),
                      isValid)
    ensures metrics.toolCalls == Bumped(old(metrics.toolCalls), ("list_users", Success))
    ensures metrics.latencyObservations == Bumped(old(metrics.latencyObservations), "list_users")
    ensures metrics.authFailures == old(metrics.authFailures)
    ensures audit.records == old(audit.records) + [ExecutionSucceeded("list_users", ListUsersParams(page, pageSize))]
  {
    var result := svc.GetUsers(file, page, ActualPageSize(pageSize));
    var response := ListUsersResponse(result, isValid);
    ListUsersParamsNotMasked(page, pageSize);
    var wrapped := AuditedCall(metrics, audit, "list_users", ListUsersParams(page, pageSize), Ok(response));
    r := wrapped.value;
  }

  method GetUserById(svc: DuckDBService, metrics: Metrics, audit: AuditLog, file: SourceFile,
                     userId: int, isValid: User -> bool) returns (r: ToolResponse)
    modifies svc, metrics, audit
    ensures var rf := Refresh(old(svc.State()), file, svc.filePath);
            && svc.State() == rf.store && svc.log == old(svc.log) + ReloadLog(rf)
            && r == GetUserResponse(
                      if rf.failure.Some? then Err(rf.failure.value) else UserById(rf.store.conn, userId),
                      isValid)
    ensures metrics.toolCalls == Bumped(old(metrics.toolCalls), ("get_user_by_id", Success))
    ensures metrics.latencyObservations == Bumped(old(metrics.latencyObservations), "get_user_by_id")
    ensures metrics.authFailures == old(metrics.authFailures)
    ensures audit.records == old(audit.records) + [ExecutionSucceeded("get_user_by_id", GetUserParams(userId))]
  {
    var result := svc.GetUserById(file, userId);
    var response := GetUserResponse(result, isValid);
    GetUserParamsNotMasked(userId);
    var wrapped := AuditedCall(metrics, audit, "get_user_by_id", GetUserParams(userId), Ok(response));
    r := wrapped.value;
  }

  method SearchUsers(svc: DuckDBService, metrics: Metrics, audit: AuditLog, file: SourceFile,
                     query: string, limit: int, isValid: User -> bool) returns (r: ToolResponse)
    requires SearchUsersArgsValid(query, limit)
    modifies svc, metrics, audit
    ensures var rf := Refresh(old(svc.State()), file, svc.filePath);
            && svc.State() == rf.store && svc.log == old(svc.log) + ReloadLog(rf)
            && r == SearchUsersResponse(
                      if rf.failure.Some? then Err(rf.failure.value) else MatchingUsers(rf.store.conn, query, limit),
                      isValid)
    ensures metrics.toolCalls == Bumped(old(metrics.toolCalls), ("search_users", Success))
    ensures metrics.latencyObservations == Bumped(old(metrics.latencyObservations), "search_users")
    ensures metrics.authFailures == old(metrics.authFailures)
    ensures audit.records == old(audit.records) + [ExecutionSucceeded("search_users", SearchUsersParams(query, limit))]
  {
    var result := svc.SearchUsers(file, query, limit);
    var response := SearchUsersResponse(result, isValid);
    SearchUsersParamsNotMasked(query, limit);
    var wrapped := AuditedCall(metrics, audit, "search_users", SearchUsersParams(query, limit), Ok(response));
    r := wrapped.value;
  }
}
