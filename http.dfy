/** What a request handler hands back to the web framework: a redirect, a JSON
    body, or a raised HTTP error, together with the cookies it sets or clears. */
module Http {
  import opened Json

  /** `HTTPException(status_code, detail)`. */
  datatype HttpError = HttpError(status: int, detail: string)

  /** `response.set_cookie(name, value)` and `response.delete_cookie(name)`. */
  datatype CookieOp = SetCookie(name: string, value: string) | DeleteCookie(name: string)

  datatype Response =
    | Redirect(location: string, cookies: seq<CookieOp>)
    | JsonResponse(body: Dict, cookies: seq<CookieOp>)
    | Raised(error: HttpError)

  /** The HTTP status the client sees: a `RedirectResponse` is a 307 and a
      `JSONResponse` a 200. */
  function StatusCode(r: Response): int
  {
    match r
    case Redirect(_, _) => 307
    case JsonResponse(_, _) => 200
    case Raised(e) => e.status
  }
}
