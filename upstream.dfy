/** The upstream football provider as the backend sees it: a request is an endpoint and its query
  * parameters, a reply is a status code with a body that may fail to decode as JSON, or a
  * transport failure. Handlers receive the provider as a function and report the requests they
  * made, in order. */
module Upstream {
  import opened Wrappers
  import opened PyJson

  datatype Request = Request(endpoint: string, params: map<string, Json>)

  datatype Reply =
    | Reply(status: int, body: Option<Json>)  // body None: the bytes are not JSON
    | TimedOut
    | ConnectionFailed

  /** A handler's outcome: its result or the exception it ended with, and the upstream requests
    * it made. */
  datatype Handled<T> = Handled(result: Result<T, HttpError>, calls: seq<Request>)

  /** A service method's outcome: its value or the exception it raised, and the upstream requests
    * it made. */
  datatype Fetched<T> = Fetched(result: PyResult<T>, calls: seq<Request>)

  /** `{"response": []}`, the fallback body of the request helpers. */
  const EmptyResponse: Json := JDict(map["response" := JList([])])
}
