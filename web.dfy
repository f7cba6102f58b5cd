/**
 * Values exchanged over HTTP, handled as opaque data: a browser `File`, the
 * outcome of a `fetch` call, and the decoded body of a request or reply.
 */
module Web {

  /** A `File`: its name, MIME type, bytes and `lastModified` time stamp. */
  datatype File = File(name: string, mimeType: string, content: seq<bv8>, lastModified: int)

  /** What `await response.json()` or `await c.req.json()` gives: the decoded value, or the error it throws. */
  datatype Body<+T> = Decoded(value: T) | Undecodable(reason: string)

  /**
   * The outcome of one `fetch`: the promise rejects (network failure), or it
   * resolves to a response whose `ok` is false or true, each with its body.
   */
  datatype Reply<+T, +E> =
    | NetworkError(reason: string)
    | NotOk(errorBody: Body<E>)
    | OkResponse(body: Body<T>)
}
