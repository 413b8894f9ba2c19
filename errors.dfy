/**
 * The crate's error types (src/error.rs): `Error`, which wraps a database or
 * an HTTP-client failure, and `ApiError`, whose `into_response` gives the
 * status code and the plain-text body sent to the browser.
 */
module Errors {

  /** The wrapped `sqlx::Error`; its inner structure is not modelled. */
  datatype SqlxError = SqlxError(detail: string)

  /** The wrapped `reqwest::Error`; its inner structure is not modelled. */
  datatype ReqwestFailure = ReqwestFailure(detail: string)

  datatype Error =
    | DatabaseError(database: SqlxError)
    | ReqwestError(http: ReqwestFailure)

  datatype ApiError =
    | TemplateNotFound(templateName: string)
    | TemplateRender(templateName: string)

  const NotFound: nat := 404
  const InternalServerError: nat := 500

  /** The `(status, message)` pair that `into_response` turns into a
      response. */
  datatype Response = Response(status: nat, body: string)

  const NotFoundPrefix: string := "template \""
  const NotFoundSuffix: string := "\" does not exist"
  const RenderPrefix: string := "failed to render template \""
  const RenderSuffix: string := "\""

  /** `impl IntoResponse for ApiError`. */
  function IntoResponse(e: ApiError): (r: Response)
    ensures e.TemplateNotFound? ==> r.status == NotFound && r.body == NotFoundPrefix + e.templateName + NotFoundSuffix
    ensures e.TemplateRender? ==> r.status == InternalServerError && r.body == RenderPrefix + e.templateName + RenderSuffix
  {
    match e
    case TemplateNotFound(name) => Response(NotFound, NotFoundPrefix + name + NotFoundSuffix)
    case TemplateRender(name) => Response(InternalServerError, RenderPrefix + name + RenderSuffix)
  }

  /** A body of the form prefix + name + suffix determines the name. */
  lemma {:induction false} FramedNameUnique(prefix: string, suffix: string, a: string, b: string)
    requires prefix + a + suffix == prefix + b + suffix
    ensures a == b
  {
    var s := prefix + a + suffix;
    assert |a| == |b|;
    assert a == s[|prefix|..|prefix| + |a|];
    assert b == (prefix + b + suffix)[|prefix|..|prefix| + |b|];
  }

  /** Different errors never give the same response: the status tells the
      two kinds apart and the body gives back the template name. */
  lemma IntoResponseInjective(a: ApiError, b: ApiError)
    requires IntoResponse(a) == IntoResponse(b)
    ensures a == b
  {
    match a
    case TemplateNotFound(n) =>
      FramedNameUnique(NotFoundPrefix, NotFoundSuffix, n, b.templateName);
    case TemplateRender(n) =>
      FramedNameUnique(RenderPrefix, RenderSuffix, n, b.templateName);
  }
}
