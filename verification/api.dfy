/**
 * The request helpers: one wrapper per verb that sends a request to the
 * API and reduces whatever happens to one of two outcome shapes.
 */
module Api {
  import opened JsModel
  import opened Config
  import opened Credentials
  import FormEncoding

  // ---------------------------------------------------------------------
  // Error classification
  // ---------------------------------------------------------------------

  const FAILED_TO_FETCH: string := "Failed to fetch"

  const CONNECT_MESSAGE: string := "Failed to connect to the server."
  const JSON_MESSAGE: string := "Response was not valid JSON."
  const REQUEST_MESSAGE: string := "There was an issue with the request or network connection."
  const NETWORK_MESSAGE: string := "Network error"

  /** `sub` occurs in `s` at index `i`. */
  predicate OccursAt(s: string, sub: string, i: int)
  {
    0 <= i && i + |sub| <= |s| && s[i..i + |sub|] == sub
  }

  /** String.prototype.includes: `sub` occurs somewhere in `s`. */
  function Includes(s: string, sub: string): (r: bool)
    ensures r <==> exists i :: OccursAt(s, sub, i)
    decreases |s|
  {
    if |s| < |sub| then false
    else if s[..|sub|] == sub then assert OccursAt(s, sub, 0); true
    else
      var r := Includes(s[1..], sub);
      assert forall i :: OccursAt(s[1..], sub, i) <==> OccursAt(s, sub, i + 1);
      assert !OccursAt(s, sub, 0);
      assert forall i :: OccursAt(s, sub, i) ==> OccursAt(s[1..], sub, i - 1);
      r
  }

  /**
   * getErrorMessage: the user-facing message for an exception. The
   * "Failed to fetch" text is looked at before the class of the error.
   */
  function GetErrorMessage(error: JsError): (r: string)
    ensures r == CONNECT_MESSAGE <==> Includes(error.message, FAILED_TO_FETCH)
    ensures r == JSON_MESSAGE <==> !Includes(error.message, FAILED_TO_FETCH) && error.kind == SyntaxError
    ensures r == REQUEST_MESSAGE <==> !Includes(error.message, FAILED_TO_FETCH) && error.kind == TypeError
    ensures r == NETWORK_MESSAGE <==> !Includes(error.message, FAILED_TO_FETCH) && error.kind == PlainError
  {
    assert |CONNECT_MESSAGE| == 32 && |JSON_MESSAGE| == 28 && |REQUEST_MESSAGE| == 58 && |NETWORK_MESSAGE| == 13;
    if Includes(error.message, FAILED_TO_FETCH) then CONNECT_MESSAGE
    else if error.kind == SyntaxError then JSON_MESSAGE
    else if error.kind == TypeError then REQUEST_MESSAGE
    else assert error.kind == PlainError; NETWORK_MESSAGE
  }

  /** A TypeError whose text mentions "Failed to fetch" counts as a connection failure, not as a request issue. */
  lemma FailedFetchTakesPrecedence(kind: ErrorKind, prefix: string, suffix: string)
    ensures GetErrorMessage(JsError(kind, prefix + FAILED_TO_FETCH + suffix)) == CONNECT_MESSAGE
  {
    var s := prefix + FAILED_TO_FETCH + suffix;
    assert s[|prefix|..|prefix| + |FAILED_TO_FETCH|] == FAILED_TO_FETCH;
    assert OccursAt(s, FAILED_TO_FETCH, |prefix|);
  }

  // ---------------------------------------------------------------------
  // What is sent and what comes back
  // ---------------------------------------------------------------------

  const CONTENT_TYPE: string := "Content-Type"
  const JSON_MIME: string := "application/json"

  datatype HttpMethod = GET | POST | PATCH | DELETE

  /** A request body: none, a JSON text of a value, or a multipart form. */
  datatype Payload = NoBody | JsonText(data: Value) | Multipart(fields: seq<FormEncoding.Entry>)

  /** One fetch call: method, absolute URL, headers, body, and whether cookies are included. */
  datatype Request = Request(verb: HttpMethod, url: string, headers: Headers, body: Payload, includeCredentials: bool)

  /** The result of response.json(): the parsed value, or the error it throws. */
  datatype BodyParse = Parsed(value: Value) | Unparseable(error: JsError)

  /** A response as fetch delivers it. */
  datatype HttpResponse = HttpResponse(status: int, body: BodyParse)
  {
    /** response.ok: the status is in the 2xx range. */
    predicate Ok()
    {
      200 <= status <= 299
    }
  }

  /** What the transport gives back for one request: a response, or the exception fetch throws. */
  datatype Exchange = Responded(response: HttpResponse) | FetchFailed(error: JsError)

  /**
   * The normalised outcome of a wrapper: `{ok, status, data}` for an
   * exchange that produced a usable reply, whatever its status, and
   * `{ok: false, status: 'error', message}` for one that threw.
   */
  datatype Outcome = Answered(ok: bool, status: int, data: Value) | Failed(message: string)
  {
    /** The `ok` field of either shape. */
    predicate IsOk()
    {
      Answered? && ok
    }
  }

  /**
   * The outcome rule of every wrapper. `readsBody` says whether the wrapper
   * parses the body (all but deleteData, which answers with `{}`).
   */
  function Settle(x: Exchange, readsBody: bool): (r: Outcome)
    ensures r.Answered? <==> x.Responded? && (!readsBody || x.response.body.Parsed?)
    ensures r.Answered? ==> r.ok == x.response.Ok() && r.status == x.response.status
    ensures r.Answered? ==> r.data == if readsBody then x.response.body.value else Obj([])
    ensures x.FetchFailed? ==> r == Failed(GetErrorMessage(x.error))
    ensures x.Responded? && readsBody && x.response.body.Unparseable? ==> r == Failed(GetErrorMessage(x.response.body.error))
    ensures r.Failed? ==> r.message in {CONNECT_MESSAGE, JSON_MESSAGE, REQUEST_MESSAGE, NETWORK_MESSAGE}
  {
    match x
    case FetchFailed(e) => Failed(GetErrorMessage(e))
    case Responded(response) =>
      if !readsBody then Answered(response.Ok(), response.status, Obj([]))
      else
        match response.body
        case Parsed(v) => Answered(response.Ok(), response.status, v)
        case Unparseable(e) => Failed(GetErrorMessage(e))
  }

  /** A 4xx or 5xx reply with a parseable body is passed on as data, not turned into a failure. */
  lemma ErrorStatusPassesThrough(status: int, body: Value, readsBody: bool)
    requires !(200 <= status <= 299)
    ensures Settle(Responded(HttpResponse(status, Parsed(body))), readsBody).Answered?
    ensures !Settle(Responded(HttpResponse(status, Parsed(body))), readsBody).IsOk()
    ensures Settle(Responded(HttpResponse(status, Parsed(body))), readsBody).status == status
  {
  }

  /** A fetch that fails to reach the server gives the connection message. */
  lemma NetworkFailureOutcome(readsBody: bool)
    ensures Settle(FetchFailed(JsError(TypeError, FAILED_TO_FETCH)), readsBody) == Failed(CONNECT_MESSAGE)
  {
    FailedFetchTakesPrecedence(TypeError, "", "");
    assert "" + FAILED_TO_FETCH + "" == FAILED_TO_FETCH;
  }

  // ---------------------------------------------------------------------
  // The six wrappers
  // ---------------------------------------------------------------------

  /** A wrapper call: the request it sends and the outcome it returns for the exchange `x`. */
  datatype Call = Call(request: Request, outcome: Outcome)

  /** getData: authenticated GET, no Content-Type, parsed body. */
  function GetData(storage: LocalStorage, endpoint: string, x: Exchange): (c: Call)
    reads storage
    ensures c.request.verb == GET && c.request.url == API_BASE_URL + endpoint && c.request.body == NoBody
    ensures c.request.headers == AuthHeaders(storage) && CONTENT_TYPE !in c.request.headers
    ensures c.outcome == Settle(x, true)
  {
    Call(Request(GET, API_BASE_URL + endpoint, AuthHeaders(storage), NoBody, false), Settle(x, true))
  }

  /** postData: unauthenticated JSON POST (login, registration): the only header is Content-Type. */
  function PostData(endpoint: string, data: Value, x: Exchange): (c: Call)
    ensures c.request.verb == POST && c.request.url == API_BASE_URL + endpoint && c.request.body == JsonText(data)
    ensures c.request.headers.Keys == {CONTENT_TYPE} && c.request.headers[CONTENT_TYPE] == JSON_MIME
    ensures AUTHORIZATION !in c.request.headers
    ensures c.outcome == Settle(x, true)
  {
    Call(Request(POST, API_BASE_URL + endpoint, map[CONTENT_TYPE := JSON_MIME], JsonText(data), false), Settle(x, true))
  }

  /** The auth headers with the JSON Content-Type added. */
  function JsonHeaders(storage: LocalStorage): (h: Headers)
    reads storage
    ensures h.Keys == AuthHeaders(storage).Keys + {CONTENT_TYPE}
    ensures h[CONTENT_TYPE] == JSON_MIME
    ensures forall k :: k in h && k != CONTENT_TYPE ==> h[k] == AuthHeaders(storage)[k]
  {
    AuthHeaders(storage)[CONTENT_TYPE := JSON_MIME]
  }

  /** postDataWJSON: authenticated JSON POST. */
  function PostDataWJson(storage: LocalStorage, endpoint: string, data: Value, x: Exchange): (c: Call)
    reads storage
    ensures c.request.verb == POST && c.request.url == API_BASE_URL + endpoint && c.request.body == JsonText(data)
    ensures c.request.headers == JsonHeaders(storage)
    ensures c.outcome == Settle(x, true)
  {
    Call(Request(POST, API_BASE_URL + endpoint, JsonHeaders(storage), JsonText(data), false), Settle(x, true))
  }

  /** patchDataWoFiles: authenticated JSON PATCH. */
  function PatchDataWoFiles(storage: LocalStorage, endpoint: string, data: Value, x: Exchange): (c: Call)
    reads storage
    ensures c.request.verb == PATCH && c.request.url == API_BASE_URL + endpoint && c.request.body == JsonText(data)
    ensures c.request.headers == JsonHeaders(storage)
    ensures c.outcome == Settle(x, true)
  {
    Call(Request(PATCH, API_BASE_URL + endpoint, JsonHeaders(storage), JsonText(data), false), Settle(x, true))
  }

  /** patchData: authenticated multipart PATCH; no Content-Type, so the browser sets the boundary. */
  function PatchData(storage: LocalStorage, endpoint: string, form: seq<FormEncoding.Entry>, x: Exchange): (c: Call)
    reads storage
    ensures c.request.verb == PATCH && c.request.url == API_BASE_URL + endpoint && c.request.body == Multipart(form)
    ensures c.request.headers == AuthHeaders(storage) && CONTENT_TYPE !in c.request.headers
    ensures c.outcome == Settle(x, true)
  {
    Call(Request(PATCH, API_BASE_URL + endpoint, AuthHeaders(storage), Multipart(form), false), Settle(x, true))
  }

  /** deleteData: authenticated DELETE; the body is never parsed and the data is always `{}`. */
  function DeleteData(storage: LocalStorage, endpoint: string, x: Exchange): (c: Call)
    reads storage
    ensures c.request.verb == DELETE && c.request.url == API_BASE_URL + endpoint && c.request.body == NoBody
    ensures c.request.headers == AuthHeaders(storage) && CONTENT_TYPE !in c.request.headers
    ensures c.outcome == Settle(x, false)
    ensures c.outcome.Answered? ==> c.outcome.data == Obj([])
  {
    Call(Request(DELETE, API_BASE_URL + endpoint, AuthHeaders(storage), NoBody, false), Settle(x, false))
  }

  /**
   * Every wrapper except postData carries `Authorization: Token <t>` exactly
   * when a non-empty token `t` is stored; postData never does.
   */
  lemma AuthorizationByVerb(storage: LocalStorage, endpoint: string, data: Value, form: seq<FormEncoding.Entry>, x: Exchange)
    ensures forall c :: c in {GetData(storage, endpoint, x), PostDataWJson(storage, endpoint, data, x),
                              PatchDataWoFiles(storage, endpoint, data, x), PatchData(storage, endpoint, form, x),
                              DeleteData(storage, endpoint, x)} ==>
              (AUTHORIZATION in c.request.headers <==> HasToken(storage)) &&
              (HasToken(storage) ==> c.request.headers[AUTHORIZATION] == "Token " + GetAuthToken(storage).value)
    ensures AUTHORIZATION !in PostData(endpoint, data, x).request.headers
  {
  }

  /** Whatever the exchange, every wrapper returns exactly one of the two shapes, and a failure carries one of the four messages. */
  lemma OutcomeShapes(x: Exchange, readsBody: bool)
    ensures Settle(x, readsBody).Answered? != Settle(x, readsBody).Failed?
    ensures Settle(x, readsBody).Failed? ==> !Settle(x, readsBody).IsOk()
    ensures Settle(x, readsBody).Failed? ==> x.FetchFailed? || (readsBody && x.response.body.Unparseable?)
  {
  }
}
