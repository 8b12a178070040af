/** What an Express handler sends: a status code and a body. The
    `res.status(s).json(...)` and `res.redirect(...)` calls of the source
    become the value returned by a pure handler function. */
module Http {

  /** The body of a response.
      - Json(v): the payload `v` serialised as JSON.
      - Message(m): the object `{ message: m }`.
      - ErrorBody(e): the object `{ error: e }`.
      - NoBody: `res.send()` with nothing.
      - Redirect(l): a redirect whose Location header is `l`. */
  datatype Body<+T> =
    | Json(value: T)
    | Message(message: string)
    | ErrorBody(error: string)
    | NoBody
    | Redirect(location: string)

  datatype Reply<+T> = Reply(status: int, body: Body<T>)

  /** Express's `res.redirect(url)` answers with status 302. */
  const RedirectStatus := 302

}
