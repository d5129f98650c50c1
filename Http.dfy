/** The HTTP vocabulary shared by the Swift client and the Python backend:
    requests as the client builds them, responses as URLSession hands them back,
    and the two ways a request can fail on the client side. */
module Http {
  import opened JsonValues

  datatype Method = GET | POST

  datatype QueryItem = QueryItem(name: string, value: string)

  /** An absolute URL: scheme and authority, a path and the query items. */
  datatype Url = Url(origin: string, path: string, query: seq<QueryItem>)

  datatype Request = Request(verb: Method, url: Url)

  /** What `URLSession.data(for:)` returns: an HTTP response with its status code,
      or some other kind of `URLResponse`; either way with the body. */
  datatype Response =
    | HttpResponse(status: int, body: Json)
    | OtherResponse(body: Json)

  /** Errors thrown to the caller: the transport failed, or `JSONDecoder` refused the body. */
  datatype ClientError = TransportError | DecodeError

  /** `URL.appendingPathComponent(component)` on a URL whose path is `path`. */
  function AppendingPathComponent(u: Url, component: string): (r: Url)
    ensures r.origin == u.origin && r.query == u.query
    ensures r.path == u.path + "/" + component
  {
    u.(path := u.path + "/" + component)
  }
}
