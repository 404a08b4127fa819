/**
 * The tool facade of app/mcp/tools.py as functions from what the store
 * returned or raised to the envelope the tool returns. Every tool catches
 * every exception, so none of them ever raises.
 */
module Tools {
  import opened Wrappers
  import opened Models
  import opened Errors
  import opened Config
  import opened DataService

  // Declared parameter bounds and defaults of the three tools.
  const PAGE_DEFAULT: int := 1
  const PAGE_SIZE_BOUND: int := 100
  const QUERY_MIN_LENGTH: int := 2
  const LIMIT_DEFAULT: int := 5
  const LIMIT_BOUND: int := 20

  /** `page >= 1`, `1 <= page_size <= 100`: the store's own precondition is then met. */
  predicate ListUsersArgsValid(page: int, pageSize: int)
    ensures ListUsersArgsValid(page, pageSize) ==> page >= 1 && pageSize >= 1 && pageSize <= PAGE_SIZE_BOUND
  {
    page >= 1 && 1 <= pageSize <= PAGE_SIZE_BOUND
  }

  /** `len(query) >= 2`, `1 <= limit <= 20`: the query is never empty and the limit asks for a row. */
  predicate SearchUsersArgsValid(query: string, limit: int)
    ensures SearchUsersArgsValid(query, limit) ==> query != [] && 0 < limit <= LIMIT_BOUND
  {
    |query| >= QUERY_MIN_LENGTH && 1 <= limit <= LIMIT_BOUND
  }

  lemma DefaultsWithinBounds(query: string)
    requires |query| >= QUERY_MIN_LENGTH
    ensures ListUsersArgsValid(PAGE_DEFAULT, PAGE_SIZE_DEFAULT)
    ensures SearchUsersArgsValid(query, LIMIT_DEFAULT)
  {
  }

  /** What a tool returns, before JSON serialisation. */
  datatype ToolResponse =
    | PageResponse(page: PaginatedResponse)
    | UserResponse(user: User)
    | UserList(users: seq<User>)
    | ErrorEnvelope(err: ErrorResponse)

  /** Stands for the text of pydantic's error when a row is not a valid `User`. */
  const ValidationErrorText: string := "validation error for User"

  /** `min(page_size, settings.PAGE_SIZE_MAX)`. */
  function ActualPageSize(pageSize: int): (n: int)
    ensures n <= PAGE_SIZE_MAX
    ensures n == pageSize || n == PAGE_SIZE_MAX
    ensures pageSize <= PAGE_SIZE_MAX ==> n == pageSize
  {
    if pageSize <= PAGE_SIZE_MAX then pageSize else PAGE_SIZE_MAX
  }

  /** With the configured maximum equal to the declared bound, the clamp never changes a valid size. */
  lemma ClampKeepsDeclaredSizes(page: int, pageSize: int)
    requires ListUsersArgsValid(page, pageSize)
    ensures ActualPageSize(pageSize) == pageSize
  {
  }

  /** `list_users` after the store call: the page, or "Internal Error" with `str(e)`. */
  function ListUsersResponse(outcome: Result<UserPage, Exception>, isValid: User -> bool): (r: ToolResponse)
    ensures r.PageResponse? || r.ErrorEnvelope?
    ensures r.PageResponse? <==> outcome.Ok? && AllValid(outcome.value.data, isValid)
    ensures r.PageResponse? ==>
      && r.page.data == outcome.value.data && r.page.total == outcome.value.total
      && r.page.page == outcome.value.page && r.page.pageSize == outcome.value.pageSize
      && r.page.nextCursor == None
    ensures r.ErrorEnvelope? ==> r.err.error == "Internal Error" && r.err.details.Some?
    ensures outcome.Err? ==> r.err.details == Some(outcome.error.message)
  {
    match outcome
    case Err(e) => ErrorEnvelope(ErrorResponse("Internal Error", Some(e.message)))
    case Ok(p) =>
      if AllValid(p.data, isValid) then PageResponse(Page(p.data, p.total, p.page, p.pageSize))
      else ErrorEnvelope(ErrorResponse("Internal Error", Some(ValidationErrorText)))
  }

  /** `get_user_by_id` after the store call: the user, "User not found", or "Search Error". */
  function GetUserResponse(outcome: Result<Option<User>, Exception>, isValid: User -> bool): (r: ToolResponse)
    ensures r.UserResponse? || r.ErrorEnvelope?
    ensures r.UserResponse? <==> outcome.Ok? && outcome.value.Some? && isValid(outcome.value.value)
    ensures r.UserResponse? ==> r.user == outcome.value.value
    ensures outcome == Ok(None) ==> r == ErrorEnvelope(ErrorOnly("User not found"))
    ensures outcome.Err? ==> r == ErrorEnvelope(ErrorResponse("Search Error", Some(outcome.error.message)))
    ensures r.ErrorEnvelope? && r.err.error != "User not found" ==> r.err.error == "Search Error" && r.err.details.Some?
  {
    match outcome
    case Err(e) => ErrorEnvelope(ErrorResponse("Search Error", Some(e.message)))
    case Ok(None) => ErrorEnvelope(ErrorOnly("User not found"))
    case Ok(Some(u)) =>
      if isValid(u) then UserResponse(u)
      else ErrorEnvelope(ErrorResponse("Search Error", Some(ValidationErrorText)))
  }

  /** `search_users` after the store call: the rows as users, in order, or "Search Failed". */
  function SearchUsersResponse(outcome: Result<seq<User>, Exception>, isValid: User -> bool): (r: ToolResponse)
    ensures r.UserList? || r.ErrorEnvelope?
    ensures r.UserList? <==> outcome.Ok? && AllValid(outcome.value, isValid)
    ensures r.UserList? ==> r.users == outcome.value
    ensures r.ErrorEnvelope? ==> r.err.error == "Search Failed" && r.err.details.Some?
    ensures outcome.Err? ==> r.err.details == Some(outcome.error.message)
  {
    match outcome
    case Err(e) => ErrorEnvelope(ErrorResponse("Search Failed", Some(e.message)))
    case Ok(rows) =>
      if AllValid(rows, isValid) then UserList(rows)
      else ErrorEnvelope(ErrorResponse("Search Failed", Some(ValidationErrorText)))
  }

  /** A lookup miss is a "User not found" envelope without details, never a failure of the call. */
  lemma MissIsNotFound(conn: Connection, id: int, isValid: User -> bool)
    requires conn.Loaded?
    requires forall i :: 0 <= i < |conn.users| ==> conn.users[i].id != id
    ensures GetUserResponse(UserById(conn, id), isValid) == ErrorEnvelope(ErrorResponse("User not found", None))
  {
  }
}
