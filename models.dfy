/** The envelope types of app/models.py. */
module Models {
  import opened Wrappers

  /** One row of the `users` table. */
  datatype User = User(
    id: int,
    firstName: string,
    lastName: string,
    email: string,
    gender: string,
    ipAddress: string)

  /** A page of users; `nextCursor` is always `None` in this version. */
  datatype PaginatedResponse = PaginatedResponse(
    data: seq<User>,
    total: int,
    page: int,
    pageSize: int,
    nextCursor: Option<int>)

  /** The uniform failure envelope: a category and an optional diagnostic. */
  datatype ErrorResponse = ErrorResponse(error: string, details: Option<string>)

  /** `ErrorResponse(error=...)` with `details` left at its default. */
  function ErrorOnly(error: string): (r: ErrorResponse)
    ensures r.error == error && r.details.None?
  {
    ErrorResponse(error, None)
  }

  /** `PaginatedResponse(**result)` with `next_cursor` left at its default. */
  function Page(data: seq<User>, total: int, page: int, pageSize: int): (r: PaginatedResponse)
    ensures r.data == data && r.total == total && r.page == page && r.pageSize == pageSize
    ensures r.nextCursor.None?
  {
    PaginatedResponse(data, total, page, pageSize, None)
  }

  /** Pydantic accepts every row (its `EmailStr` check is the parameter `isValid`). */
  predicate AllValid(rows: seq<User>, isValid: User -> bool)
  {
    forall i :: 0 <= i < |rows| ==> isValid(rows[i])
  }
}
