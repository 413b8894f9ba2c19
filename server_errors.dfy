/**
 * The server-function error of src/server/error.rs and its conversion into
 * the web framework's `ServerFnError`, which only keeps a fixed text per
 * variant.
 */
module ServerErrors {
  import Errors

  datatype Error =
    | DatabaseError(database: Errors.SqlxError)
    | ReqwestError(http: Errors.ReqwestFailure)

  /** The message-carrying variants of the framework's `ServerFnError`. */
  datatype ServerFnError =
    | Registration(message: string)
    | Request(message: string)
    | ServerError(message: string)
    | Deserialization(message: string)
    | Serialization(message: string)
    | Args(message: string)
    | MissingArg(message: string)

  /** `impl Into<ServerFnError> for Error`. */
  function IntoServerFnError(e: Error): (r: ServerFnError)
    ensures r.ServerError?
    ensures e.DatabaseError? ==> r.message == "db error"
    ensures e.ReqwestError? ==> r.message == "reqwest error"
  {
    var msg := match e
      case DatabaseError(_) => "db error"
      case ReqwestError(_) => "reqwest error";
    ServerError(msg)
  }

  /** The text depends on the variant only, never on the wrapped error, and
      the two variants give different texts. */
  lemma MessageDependsOnVariantOnly(a: Error, b: Error)
    ensures (a.DatabaseError? == b.DatabaseError?) <==> IntoServerFnError(a) == IntoServerFnError(b)
  {
  }
}
