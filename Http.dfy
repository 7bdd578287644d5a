/**
 * Requests the adapter issues and the responses it receives. A response is an
 * input to the model; `fetch` itself, header transport and body streaming are
 * not modelled.
 */
module Http {

  /** One authenticated GET: its URL and its `Authorization` header. */
  datatype Request = Request(url: string, authorization: string)

  /** A received response: status line, body as text, and body as parsed JSON of type `J`. */
  datatype Response<J> = Response(status: int, statusText: string, text: string, json: J)

  /** `response.ok` of the Fetch standard: a status in the range 200 to 299. */
  predicate IsOk<J>(r: Response<J>) { 200 <= r.status <= 299 }

  /** The header value the remote API expects for a bearer token. */
  function Authorization(token: string): string { "OAuth " + token }

  /** A GET of `url` carrying the token. */
  function Get(url: string, token: string): Request {
    Request(url, Authorization(token))
  }
}
