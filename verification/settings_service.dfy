/**
 * The settings service object (src/API/settingsService.js): every request
 * carries a bearer header built from the stored token, and every method
 * either returns the reply's body or throws an Error built by the shared
 * error handler.
 */
module SettingsService {
  import opened Js
  import opened Storage

  const DefaultApiError: string := "An error occurred"
  const BearerPrefix: string := "Bearer "
  const JsonContentType: string := "application/json"

  datatype Headers = Headers(authorization: string, contentType: string)

  const ApiUrl: string := "http://your-api-url/api"

  /** The four service methods; all share the same return-or-throw shape. */
  datatype Endpoint = GetSettings | UpdateNotificationSettings | UpdatePrivacySettings | UpdateSoundSettings

  /** An outgoing request: verb, URL, body (undefined for a GET) and headers. */
  datatype HttpRequest = HttpRequest(verb: string, url: string, body: Value, headers: Headers)

  function Path(endpoint: Endpoint): string {
    match endpoint
    case GetSettings => "/user/settings"
    case UpdateNotificationSettings => "/user/settings/notifications"
    case UpdatePrivacySettings => "/user/settings/privacy"
    case UpdateSoundSettings => "/user/settings/sound"
  }

  /** The request a service method sends: a GET for reading, a PUT of the body for each update, always with `getHeaders()`. */
  function Request(endpoint: Endpoint, body: Value, store: LocalStorage): (r: HttpRequest)
    reads store
    ensures r.verb == "GET" <==> endpoint.GetSettings?
    ensures !endpoint.GetSettings? ==> r.verb == "PUT" && r.body == body
    ensures endpoint.GetSettings? ==> r.body == Undefined
    ensures |r.url| > |ApiUrl| && r.url[..|ApiUrl|] == ApiUrl && r.url[|ApiUrl|..] == Path(endpoint)
    ensures r.headers == GetHeaders(store)
  {
    if endpoint.GetSettings? then HttpRequest("GET", ApiUrl + Path(endpoint), Undefined, GetHeaders(store))
    else HttpRequest("PUT", ApiUrl + Path(endpoint), body, GetHeaders(store))
  }

  /** Each service method has its own URL, so no two of them can be confused by the server. */
  lemma {:induction false} RequestUrlsDistinct(e1: Endpoint, e2: Endpoint, b1: Value, b2: Value, store: LocalStorage)
    requires e1 != e2
    ensures Request(e1, b1, store).url != Request(e2, b2, store).url
  {
  }

  /** `getHeaders`: the stored token interpolated after "Bearer " (null interpolates as "null"). */
  function GetHeaders(store: LocalStorage): (h: Headers)
    reads store
    ensures h.contentType == JsonContentType
    ensures |h.authorization| >= |BearerPrefix| && h.authorization[..|BearerPrefix|] == BearerPrefix
    ensures TokenKey in store.entries ==> h.authorization[|BearerPrefix|..] == store.entries[TokenKey]
    ensures TokenKey !in store.entries ==> h.authorization == "Bearer null"
  {
    Headers(BearerPrefix + ToJsString(ItemValue(store.GetItem(TokenKey))), JsonContentType)
  }

  /**
   * The message `handleApiError` puts in its Error: the server's
   * `response.data.message` if truthy, else the error's own `message` if
   * truthy, else the fixed default; coerced to a string by `new Error`.
   */
  function ApiErrorMessage(error: Value): (m: string)
    requires !Nullish(error)
    ensures m != ""
    ensures var server := OptionalRead(OptionalRead(Member(error, "response"), "data"), "message");
      && (Truthy(server) ==> m == ToJsString(server))
      && (!Truthy(server) && Truthy(Member(error, "message")) ==> m == ToJsString(Member(error, "message")))
      && (!Truthy(server) && !Truthy(Member(error, "message")) ==> m == DefaultApiError)
  {
    var server := OptionalRead(OptionalRead(Member(error, "response"), "data"), "message");
    var chosen := Or(Or(server, Member(error, "message")), Str(DefaultApiError));
    OrTruthy(server, Member(error, "message"));
    OrTruthy(Or(server, Member(error, "message")), Str(DefaultApiError));
    ToJsString(chosen)
  }

  /** `handleApiError`: never returns normally; it always throws. */
  function HandleApiError(error: Value): (c: Completion)
    ensures c.Throw?
    ensures !Nullish(error) ==> c.exception == ErrorObject("Error", ApiErrorMessage(error))
    ensures Nullish(error) ==> c.exception == ErrorObject("TypeError", ReadErrorMessage(error, "response"))
  {
    match Read(error, "response")
    case Throw(e) => Throw(e)
    case Return(_) => Throw(ErrorObject("Error", ApiErrorMessage(error)))
  }

  /** Every service method: the reply's body, or whatever `handleApiError` throws. */
  function Call(endpoint: Endpoint, reply: HttpOutcome): (c: Completion)
    ensures reply.Response? ==> c == Return(reply.data)
    ensures reply.Failure? ==> c.Throw? && c == HandleApiError(reply.error)
    ensures c.Throw? ==> c.exception.Obj? && Member(c.exception, "message").Str? && Member(c.exception, "message").s != ""
  {
    match reply
    case Response(data) => Return(data)
    case Failure(error) => HandleApiError(error)
  }
}
