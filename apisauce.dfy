/**
 * The shapes the API layer exchanges with the apisauce HTTP client. The
 * network itself is not modelled: a `Network` is any function from the
 * request sent to the outcome of sending it.
 */
module Apisauce {
  import opened Wrappers
  import Js

  /** `tokens.access.token` and `tokens.refresh.token` of a login response body. */
  datatype Tokens = Tokens(access: string, refresh: string)

  /** The parsed response body: its `message` and, for login, its `tokens`. */
  datatype ResponseBody = ResponseBody(message: Option<string>, tokens: Option<Tokens>)

  /**
   * An apisauce response: `ok`, the `problem` tag (a string or null), the
   * HTTP `status` (absent when nothing was received) and the body `data`.
   */
  datatype ApiResponse = ApiResponse(ok: bool, problem: Option<string>, status: Option<int>, data: Option<ResponseBody>)

  datatype Verb = Get | Post

  /** One request: verb, path relative to the base URL, JSON body (or GET params) and per-call headers. */
  datatype Request = Request(verb: Verb, path: string, payload: map<string, Js.Value>, headers: map<string, string>)

  /** Awaiting the request either yields a response or throws an error with a message. */
  datatype CallOutcome = Responded(response: ApiResponse) | Threw(message: string)

  type Network = Request -> CallOutcome

  /** `ApiConfig`: base URL and request timeout in milliseconds. */
  datatype ApiConfig = ApiConfig(url: string, timeout: int)

  /** What `create` is given: base URL, timeout and default headers. */
  datatype Instance = Instance(baseURL: string, timeout: int, headers: map<string, string>)
}
