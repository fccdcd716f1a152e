/** The REST adapter as seen by the client: a GET request and the reply it
    produces. The HTTP exchange itself is not modelled; a reply is either a
    `Result` (a 2xx response with a JSON body) or the exception `get` raised:
    the adapter's `WrikeException`, or the `TypeError` or `ValueError` that
    building the `Result` raises on a malformed body. */
module Transport {
  import opened Signals
  import opened Json
  import opened Models

  /** `RestAdapter.get(endpoint, ep_params)`; no parameters is the empty map. */
  datatype Request = Request(endpoint: string, params: Object)

  type Reply = Try<Result>
}
