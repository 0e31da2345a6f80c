/** What a route handler sends back: a status, a JSON body and the cookies it sets. */
module Http {
  import opened Common

  datatype SameSite = Strict | Lax

  /** One `Set-Cookie` header, with the attributes the handlers use. `maxAge` is in
      seconds; `expires` is a time in seconds since the epoch. */
  datatype Cookie = Cookie(
    name: string,
    value: string,
    httpOnly: bool,
    secure: bool,
    path: string,
    maxAge: Option<int>,
    expires: Option<int>,
    sameSite: Option<SameSite>)

  /** `{ error: ... }`, a handler-specific payload, or no JSON body at all (the
      framework's own page for an exception the handler does not catch). */
  datatype Body<T> = Error(error: string) | Data(data: T) | NoBody

  datatype Response<T> = Response(status: int, body: Body<T>, cookies: seq<Cookie>)

  /** `NextResponse.json(data, { status })` */
  function Json<T>(status: int, data: T): Response<T> {
    Response(status, Data(data), [])
  }

  /** `NextResponse.json({ error }, { status })` */
  function Fail<T>(status: int, error: string): Response<T> {
    Response(status, Error(error), [])
  }

  /** The body every handler's `catch` block returns with status 500. */
  const INTERNAL_ERROR := "Internal server error"

  /** The response the framework produces for an exception no handler code catches. */
  function Unhandled<T>(): Response<T> {
    Response(500, NoBody, [])
  }
}
