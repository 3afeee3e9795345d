/**
 * The request and transport shapes the network middleware exchanges with
 * the HTTP client: an endpoint descriptor, the request config it builds,
 * and the outcome of sending it.
 */
module Http {
  import opened Wrappers
  import opened JsValue

  /** The verbs of `HTTP_METHODS`; only GET is treated specially. */
  datatype HttpMethod = GET | POST | PUT | PATCH | DELETE

  /** An entry of the endpoint registry: a path relative to the base URL and a verb. */
  datatype Endpoint = Endpoint(path: string, verb: HttpMethod)

  /** One `FormData.append(name, value)` entry. */
  datatype FormPart = FormPart(name: string, value: Value)

  /** The `data` field of a request config: absent, `{ reqData }`, or a multipart form. */
  datatype Payload =
    | NoData
    | JsonBody(reqData: string)
    | Form(parts: seq<FormPart>)

  /** An axios request config as the middleware builds it. */
  datatype RequestConfig = RequestConfig(
    verb: HttpMethod,
    url: string,
    headers: map<string, string>,
    timeout: int,
    data: Payload)

  /** The response attached to a failed request: HTTP status, status text and body. */
  datatype HttpReply = HttpReply(status: int, statusText: string, data: Value)

  /**
   * What sending a request gives back: a delivered response (status and body), or
   * a thrown error with the server's response if there was one, the error's
   * `message` and its string form `${error}`.
   */
  datatype Transport =
    | Delivered(status: int, body: Value)
    | Thrown(response: Option<HttpReply>, message: string, display: string)

  /** The two routes the middleware sends as multipart forms. */
  const REGISTER_ROUTE := "api/user/v1/auth/register"
  const UPDATE_PROFILE_ROUTE := "api/user/v1/account/update-profile"
}
