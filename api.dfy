/** The shared HTTP client (src/services/api.js): its configuration defaults, the request
    interceptor that attaches the API key to write requests, and the response interceptor that
    passes successes through and normalises failures. */
module Api {
  import opened Wrappers
  import opened Text
  import opened Catalog

  const DefaultBaseUrl: string := "http://localhost:5000/api"
  const DefaultApiKey: string := "tasknapi"
  const ApiKeyHeader: string := "x-api-key"
  const NetworkErrorMessage: string := "Network error. Please check your connection."

  /** `configured || fallback` for an environment variable that may be unset or empty. */
  function ConfiguredOr(configured: Option<string>, fallback: string): (r: string)
    ensures configured.Some? && configured.value != "" ==> r == configured.value
    ensures configured.None? || configured.value == "" ==> r == fallback
    ensures fallback != "" ==> r != ""
  {
    OrElse(configured, fallback)
  }

  /** The base URL: the configured one, or the local default; never empty. */
  function ApiBaseUrl(configured: Option<string>): (r: string)
    ensures r != ""
    ensures r == DefaultBaseUrl || (configured.Some? && r == configured.value)
  {
    ConfiguredOr(configured, DefaultBaseUrl)
  }

  /** The API key: the configured one, or the built-in default; never empty. */
  function ApiKey(configured: Option<string>): (r: string)
    ensures r != ""
    ensures r == DefaultApiKey || (configured.Some? && r == configured.value)
  {
    ConfiguredOr(configured, DefaultApiKey)
  }

  /** `['post', 'put', 'delete'].includes(method.toLowerCase())`. */
  predicate IsWriteMethod(verb: string) {
    var m := ToLower(verb);
    m == "post" || m == "put" || m == "delete"
  }

  /** The write-method test does not depend on how the method name is capitalised. */
  lemma WriteMethodIgnoresCase(verb: string)
    ensures IsWriteMethod(ToUpper(verb)) == IsWriteMethod(verb)
    ensures IsWriteMethod(ToLower(verb)) == IsWriteMethod(verb)
  {
    ToLowerForgetsCase(verb);
  }

  /** Writes are recognised in any case. */
  lemma WriteMethodExamples()
    ensures IsWriteMethod("POST") && IsWriteMethod("Put") && IsWriteMethod("delete")
  {
    assert ToLower("POST") == "post";
    assert ToLower("Put") == "put";
  }

  /** Reads and other methods are not writes. */
  lemma ReadMethodExamples()
    ensures !IsWriteMethod("get") && !IsWriteMethod("GET") && !IsWriteMethod("patch")
  {
    assert ToLower("get") == "get";
    assert ToLower("GET") == "get";
    assert ToLower("patch") == "patch";
  }

  /** The headers a request leaves the interceptor with. */
  function InterceptedHeaders(verb: string, headers: map<string, string>, apiKey: string): (r: map<string, string>)
    ensures IsWriteMethod(verb) ==> ApiKeyHeader in r && r[ApiKeyHeader] == apiKey
    ensures !IsWriteMethod(verb) ==> r == headers
    ensures forall h :: h in headers && h != ApiKeyHeader ==> h in r && r[h] == headers[h]
    ensures r.Keys == headers.Keys || r.Keys == headers.Keys + {ApiKeyHeader}
  {
    if IsWriteMethod(verb) then headers[ApiKeyHeader := apiKey] else headers
  }

  /** The parts of an axios request configuration the interceptor looks at. */
  class RequestConfig {
    var verb: string
    var url: string
    var headers: map<string, string>

    constructor (verb: string, url: string, headers: map<string, string>)
      ensures this.verb == verb && this.url == url && this.headers == headers
    {
      this.verb := verb;
      this.url := url;
      this.headers := headers;
    }
  }

  /** The request interceptor: sets `x-api-key` on write requests, in place, and returns the
      same configuration object. The client passes `ApiKey(configured)`, the key read from the
      environment at start-up. */
  method InterceptRequest(config: RequestConfig, apiKey: string) returns (r: RequestConfig)
    modifies config
    ensures r == config
    ensures config.verb == old(config.verb) && config.url == old(config.url)
    ensures config.headers == InterceptedHeaders(old(config.verb), old(config.headers), apiKey)
  {
    if IsWriteMethod(config.verb) {
      config.headers := config.headers[ApiKeyHeader := apiKey];
    }
    r := config;
  }

  /** `${prefix}${id}`, the path of one item of a resource; the id can be read back from it. */
  function ItemPath(prefix: string, id: Id): (path: string)
    ensures |path| > |prefix| && path[..|prefix|] == prefix
    ensures PathId(prefix, path) == Some(id)
  {
    PathIdRoundTrip(prefix, id);
    prefix + IntToString(id)
  }

  /** The body a request carries. */
  datatype Body = NoBody | CategoryBody(fields: CategoryFields) | ProductBody(payload: ProductPayload)

  /** A call on the shared client, `apiClient.get(path)`, `apiClient.post(path, body)` and so
      on; axios names the method in lower case, and sends it to `ApiBaseUrl(configured)`
      followed by the path. */
  datatype Request = Request(verb: string, path: string, body: Body)

  /** An error payload sent by the server, as axios parses the body: a value whose `message`
      the front end reads (missing for a payload without one, and for a non-object), or JSON
      `null`, whose `message` cannot be read at all. */
  datatype ServerBody = ServerBody(message: Option<string>) | NullBody

  datatype HttpResponse<T> = HttpResponse(status: int, data: T)

  /** A failed axios call: the server's response if one arrived, whether the request was sent,
      and axios's own message. */
  datatype AxiosError = AxiosError(response: Option<HttpResponse<ServerBody>>, requestSent: bool, message: string)

  /** What a failed call throws to its awaiting caller. */
  datatype Thrown =
    | ServerRejection(body: ServerBody)  // the server's payload, verbatim
    | ClientError(message: string)       // an object `{ message }` built by the client

  /** The response interceptor's error branch. */
  function NormaliseError(e: AxiosError): (t: Thrown)
    ensures e.response.Some? ==> t == ServerRejection(e.response.value.data)
    ensures e.response.None? && e.requestSent ==> t == ClientError(NetworkErrorMessage)
    ensures e.response.None? && !e.requestSent ==> t == ClientError(e.message)
  {
    if e.response.Some? then ServerRejection(e.response.value.data)
    else if e.requestSent then ClientError(NetworkErrorMessage)
    else ClientError(e.message)
  }

  /** Reading `error.message` of the thrown value itself throws a TypeError: it does when the
      server's payload was `null`. */
  predicate MessageReadThrows(t: Thrown) {
    t.ServerRejection? && t.body.NullBody?
  }

  /** `error.message` of a thrown value whose message can be read. */
  function MessageOf(t: Thrown): Option<string>
    requires !MessageReadThrows(t)
  {
    match t
    case ServerRejection(body) => body.message
    case ClientError(m) => Some(m)
  }

  /** `error.message || fallback`, the text every handler puts in its error toast. */
  function ErrorText(t: Thrown, fallback: string): (r: string)
    requires !MessageReadThrows(t)
    ensures MessageOf(t).Some? && MessageOf(t).value != "" ==> r == MessageOf(t).value
    ensures (MessageOf(t).None? || MessageOf(t).value == "") ==> r == fallback
  {
    OrElse(MessageOf(t), fallback)
  }

  /** The toasts of a `catch (error) { toast.error(error.message || fallback) }` block: one,
      with the thrown message or the fallback; none when reading the message throws, in which
      case the handler's `finally` still runs and its promise is rejected. */
  function ErrorNotices(t: Thrown, fallback: string): (r: seq<Notice>)
    ensures MessageReadThrows(t) <==> r == []
    ensures !MessageReadThrows(t) ==> r == [ErrorNotice(ErrorText(t, fallback))]
  {
    if MessageReadThrows(t) then [] else [ErrorNotice(ErrorText(t, fallback))]
  }

  /** The toast text of a failed call, by the shape of the axios error. */
  lemma ErrorTextOfNormalised(e: AxiosError, fallback: string)
    ensures e.response.Some? && e.response.value.data.ServerBody? ==>
      ErrorNotices(NormaliseError(e), fallback) == [ErrorNotice(OrElse(e.response.value.data.message, fallback))]
    ensures e.response.None? && e.requestSent ==>
      ErrorNotices(NormaliseError(e), fallback) == [ErrorNotice(NetworkErrorMessage)]
    ensures e.response.None? && !e.requestSent && e.message != "" ==>
      ErrorNotices(NormaliseError(e), fallback) == [ErrorNotice(e.message)]
    ensures e.response.None? && !e.requestSent && e.message == "" ==>
      ErrorNotices(NormaliseError(e), fallback) == [ErrorNotice(fallback)]
  {
  }

  /** A server that answers an error with a `null` body gets no toast at all: the thrown `null`
      has no readable `message`. */
  lemma NullPayloadRaisesNoToast(e: AxiosError, fallback: string)
    requires e.response.Some? && e.response.value.data == NullBody
    ensures ErrorNotices(NormaliseError(e), fallback) == []
  {
  }

  /** What an awaited service call settles to: a success passes through the response
      interceptor unchanged and the service returns its `data`; a failure is normalised. */
  function Settle<T>(outcome: Result<HttpResponse<T>, AxiosError>): (r: Result<T, Thrown>)
    ensures outcome.Success? <==> r.Success?
    ensures outcome.Success? ==> r.value == outcome.value.data
    ensures outcome.Failure? ==> r.error == NormaliseError(outcome.error)
  {
    match outcome
    case Success(response) => Success(response.data)
    case Failure(e) => Failure(NormaliseError(e))
  }
}
