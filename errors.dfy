/**
 * The exceptions that can reach the tool facade: the project's own hierarchy
 * (app/core/exceptions.py) and the foreign ones its operations can raise.
 */
module Errors {

  datatype ExceptionType =
    | ToolError               // base class of the project's errors
    | DataLoadError           // missing backing file, failed load
    | InvalidParameterError   // declared, never raised
    | CatalogException        // DuckDB: the `users` table does not exist
    | AttributeError          // Python: a query on a connection that is `None`
    | ValidationError         // pydantic: a row is not a valid `User`

  /** A raised exception: its class and `str(e)`. */
  datatype Exception = Exception(kind: ExceptionType, message: string)

  /** `type(e).__name__`: the classes of exceptions.py are exactly those named as such. */
  function TypeName(kind: ExceptionType): (name: string)
    ensures kind in {ToolError, DataLoadError, InvalidParameterError}
        <==> name in {"ToolError", "DataLoadError", "InvalidParameterError"}
  {
    match kind
    case ToolError => "ToolError"
    case DataLoadError => "DataLoadError"
    case InvalidParameterError => "InvalidParameterError"
    case CatalogException => "CatalogException"
    case AttributeError => "AttributeError"
    case ValidationError => "ValidationError"
  }

  /** Distinct classes have distinct names, so `error_type` identifies the class. */
  lemma TypeNameInjective(a: ExceptionType, b: ExceptionType)
    ensures TypeName(a) == TypeName(b) ==> a == b
  {
  }
}
