/**
  The shape of what the request layer produces: a status and a JSON body, or
  nothing at all when a handler throws out of its own error handling.
 */
module Http {

  /** A response body: none (`res.end()`), an `{Error: message}` object, or a rendered payload. */
  datatype Body<+T> = NoBody | ErrorBody(message: string) | Payload(value: T)

  /** What a route handler does with a request: send one response, or let an
      exception escape from its catch block, so that no code of this system answers. */
  datatype Reply<+T> = Sent(status: int, body: Body<T>) | Escaped

  /** What a middleware does: hand the request on (`next()`), or stop it with
      a status and an `{Error: message}` body. */
  datatype Gate = Next | Stop(status: int, message: string)
}
