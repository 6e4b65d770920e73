/**
 * The account-activation page: reads `uid` and `token` from the query
 * string, asks the API to activate the account, shows the processing,
 * success or error state and redirects.
 */
module Activation {
  import opened JsModel
  import opened Config
  import Api

  // ---------------------------------------------------------------------
  // Query parameters
  // ---------------------------------------------------------------------

  /** The parsed query string: for each name, the first value given (URLSearchParams.get). */
  type Query = map<string, string>

  datatype ActivationParams = ActivationParams(uid: string, token: string)

  /** URLSearchParams.get: the value, or null when the name is absent. */
  function QueryGet(query: Query, name: string): Option<string>
  {
    if name in query then Some(query[name]) else None
  }

  /** A query value that is present and not the empty string (truthy). */
  predicate Present(value: Option<string>)
  {
    value.Some? && value.value != ""
  }

  /** extractParams: both values when both are truthy, null otherwise. */
  function ExtractParams(query: Query): (r: Option<ActivationParams>)
    ensures r.Some? <==> "uid" in query && query["uid"] != "" && "token" in query && query["token"] != ""
    ensures r.Some? ==> r.value.uid == query["uid"] && r.value.token == query["token"]
  {
    var uid, token := QueryGet(query, "uid"), QueryGet(query, "token");
    if Present(uid) && Present(token) then Some(ActivationParams(uid.value, token.value)) else None
  }

  /**
   * extractActivationParams: takes the result of extractParams (or `{}`),
   * and checks both fields once more.
   */
  function ExtractActivationParams(query: Query): (r: Option<ActivationParams>)
    ensures r.Some? <==> "uid" in query && query["uid"] != "" && "token" in query && query["token"] != ""
    ensures r.Some? ==> r.value == ActivationParams(query["uid"], query["token"])
    ensures r == ExtractParams(query)
  {
    var extracted := ExtractParams(query);
    var uid := if extracted.Some? then extracted.value.uid else "";
    var token := if extracted.Some? then extracted.value.token else "";
    if uid == "" || token == "" then None else Some(ActivationParams(uid, token))
  }

  // ---------------------------------------------------------------------
  // The activation request and its result
  // ---------------------------------------------------------------------

  /** The endpoint of the activation request, relative to the API base URL. */
  function ActivationEndpoint(params: ActivationParams): string
  {
    "activate/" + params.uid + "/" + params.token + "/"
  }

  /** sendActivationRequest: a GET with a JSON Content-Type and cookies included. */
  function ActivationRequest(params: ActivationParams): (r: Api.Request)
    ensures r.verb == Api.GET && r.body == Api.NoBody && r.includeCredentials
    ensures r.url == API_BASE_URL + "activate/" + params.uid + "/" + params.token + "/"
    ensures r.headers == map[Api.CONTENT_TYPE := Api.JSON_MIME]
  {
    Api.Request(Api.GET, API_BASE_URL + ActivationEndpoint(params), map[Api.CONTENT_TYPE := Api.JSON_MIME], Api.NoBody, true)
  }

  /**
   * When the uid holds no `/` (the separator), the endpoint determines the
   * parameters: two different activations never share an endpoint.
   */
  lemma ActivationEndpointInjective(p: ActivationParams, q: ActivationParams)
    requires forall i :: 0 <= i < |p.uid| ==> p.uid[i] != '/'
    requires forall i :: 0 <= i < |q.uid| ==> q.uid[i] != '/'
    requires ActivationEndpoint(p) == ActivationEndpoint(q)
    ensures p == q
  {
    var a := ActivationEndpoint(p);
    assert |"activate/"| == 9;
    assert forall i :: 0 <= i < |p.uid| ==> a[9 + i] == p.uid[i];
    assert forall i :: 0 <= i < |q.uid| ==> a[9 + i] == q.uid[i];
    assert a[9 + |p.uid|] == '/';
    assert a[9 + |q.uid|] == '/';
    assert |p.uid| == |q.uid|;
    assert p.uid == a[9..9 + |p.uid|] == q.uid;
    assert p.token == a[10 + |p.uid|..|a| - 1] == q.token;
  }

  /**
   * The error processActivation throws for a non-ok reply:
   * `new Error(result.error || "Activation failed")`, or the TypeError of
   * reading `error` from a null body.
   */
  function FailureOf(result: Value): (e: JsError)
    ensures result.Obj? && Truthy(FieldValue(result.fields, "error")) ==>
              e == JsError(PlainError, ToJsString(FieldValue(result.fields, "error")))
    ensures result.Obj? && !Truthy(FieldValue(result.fields, "error")) ==>
              e == JsError(PlainError, "Activation failed")
    ensures !result.Obj? && !result.Null? && !result.Undefined? ==> e == JsError(PlainError, "Activation failed")
    ensures result.Null? || result.Undefined? ==> e.kind == TypeError
  {
    match Property(result, "error")
    case Err(e) => e
    case Ok(error) => JsError(PlainError, if Truthy(error) then ToJsString(error) else "Activation failed")
  }

  /**
   * processActivation after the request is sent: the parsed body of an ok
   * reply, or what is thrown. Everything it throws is an Error object.
   */
  function ActivationResult(x: Api.Exchange): (r: Result<Value, Thrown>)
    ensures r.Ok? <==> x.Responded? && x.response.Ok() && x.response.body.Parsed?
    ensures r.Ok? ==> r.value == x.response.body.value
    ensures r.Err? ==> r.error.ThrownError?
    ensures x.FetchFailed? ==> r == Err(ThrownError(x.error))
    ensures x.Responded? && x.response.body.Unparseable? ==> r == Err(ThrownError(x.response.body.error))
    ensures x.Responded? && !x.response.Ok() && x.response.body.Parsed? ==>
              r == Err(ThrownError(FailureOf(x.response.body.value)))
  {
    match x
    case FetchFailed(e) => Err(ThrownError(e))
    case Responded(response) =>
      match response.body
      case Unparseable(e) => Err(ThrownError(e))
      case Parsed(result) =>
        if !response.Ok() then Err(ThrownError(FailureOf(result))) else Ok(result)
  }

  // ---------------------------------------------------------------------
  // Messages, content and presentation
  // ---------------------------------------------------------------------

  const DEFAULT_SUCCESS_TEXT: string := "Account successfully activated!"
  const GENERIC_ERROR_TEXT: string := "Something went wrong during activation !"

  /**
   * The message handleActivationSuccess shows: `result.message` when
   * truthy, the default text otherwise. Reading `message` of a null body
   * throws a TypeError.
   */
  function SuccessMessage(result: Value): (r: Result<Value, Thrown>)
    ensures r.Err? <==> result.Null? || result.Undefined?
    ensures r.Err? ==> r.error.ThrownError? && r.error.error.kind == TypeError
    ensures r.Ok? ==> Truthy(r.value)
    ensures result.Obj? && Truthy(FieldValue(result.fields, "message")) ==> r == Ok(FieldValue(result.fields, "message"))
    ensures r.Ok? && !(result.Obj? && Truthy(FieldValue(result.fields, "message"))) ==> r == Ok(Str(DEFAULT_SUCCESS_TEXT))
  {
    match Property(result, "message")
    case Err(e) => Err(ThrownError(e))
    case Ok(message) => Ok(if Truthy(message) then message else Str(DEFAULT_SUCCESS_TEXT))
  }

  /** The message handleActivationError shows: the thrown value when it is a string, the generic text otherwise. */
  function ErrorMessage(error: Thrown): (r: string)
    ensures error.ThrownError? ==> r == GENERIC_ERROR_TEXT
    ensures error.ThrownString? ==> r == error.text
  {
    match error
    case ThrownString(text) => text
    case ThrownError(_) => GENERIC_ERROR_TEXT
  }

  /** The icon, title and text shown for a status. */
  datatype ActivationContent = ActivationContent(icon: string, title: string, text: string)

  /** getActivationContent: the table entry for `status`, its text replaced by a truthy custom message. */
  function GetActivationContent(status: ActivationStatus, customMessage: Value): (c: ActivationContent)
    ensures c.icon == ActivationMessages(status).icon && c.title == ActivationMessages(status).title
    ensures Truthy(customMessage) ==> c.text == ToJsString(customMessage)
    ensures !Truthy(customMessage) ==> c.text == ActivationMessages(status).text
  {
    var base := ActivationMessages(status);
    ActivationContent(base.icon, base.title, if Truthy(customMessage) then ToJsString(customMessage) else base.text)
  }

  const SUCCESS_CLASS: string := "activation-success-text"
  const ERROR_CLASS: string := "font_error_color"
  const PRIME_CLASS: string := "font_prime_color"
  const LOGIN_REDIRECT_LINE: string := "Redirecting to login..."
  const HOME_REDIRECT_LINE: string := "Redirecting to homepage..."

  /** What buildActivationHTML puts on the page: the title's class, the content, and the redirect line ("" for none). */
  datatype ActivationView = ActivationView(titleClass: string, icon: string, title: string, text: string, redirectLine: string)

  /** buildActivationHTML: the content as given, with the title class and redirect line chosen by status. */
  function BuildActivationHTML(content: ActivationContent, status: ActivationStatus): (v: ActivationView)
    ensures v.icon == content.icon && v.title == content.title && v.text == content.text
    ensures status == Success ==> v.titleClass == SUCCESS_CLASS && v.redirectLine == LOGIN_REDIRECT_LINE
    ensures status == Error ==> v.titleClass == ERROR_CLASS && v.redirectLine == HOME_REDIRECT_LINE
    ensures status == Processing ==> v.titleClass == PRIME_CLASS && v.redirectLine == ""
  {
    var redirectLine := if status == Success then LOGIN_REDIRECT_LINE
                        else if status == Error then HOME_REDIRECT_LINE
                        else "";
    var titleClass := if status == Success then SUCCESS_CLASS
                      else if status == Error then ERROR_CLASS
                      else PRIME_CLASS;
    ActivationView(titleClass, content.icon, content.title, content.text, redirectLine)
  }

  /** The title class tells the three states apart, and only the processing state has no redirect line. */
  lemma PresentationDeterminesStatus(c1: ActivationContent, s1: ActivationStatus, c2: ActivationContent, s2: ActivationStatus)
    ensures BuildActivationHTML(c1, s1).titleClass == BuildActivationHTML(c2, s2).titleClass ==> s1 == s2
    ensures BuildActivationHTML(c1, s1).redirectLine == "" <==> s1 == Processing
  {
    assert |SUCCESS_CLASS| == 23 && |ERROR_CLASS| == 16 && |PRIME_CLASS| == 16;
    assert ERROR_CLASS[5] == 'e' && PRIME_CLASS[5] == 'p';
    assert |LOGIN_REDIRECT_LINE| == 23 && |HOME_REDIRECT_LINE| == 26;
  }

  // ---------------------------------------------------------------------
  // The activation flow as a trace of page events
  // ---------------------------------------------------------------------

  /** What the page does that can be observed. */
  datatype Event =
    | Display(status: ActivationStatus, message: Value)        // updateActivationContent rewrites the content element
    | SendRequest(request: Api.Request)                          // a fetch is issued
    | Navigate(url: string)                                      // window.location.href is assigned
    | RedirectByStatus(destination: string)                      // the page's status redirect is invoked

  /** The view updateActivationContent writes for a status and custom message. */
  function ViewFor(status: ActivationStatus, customMessage: Value): ActivationView
  {
    BuildActivationHTML(GetActivationContent(status, customMessage), status)
  }

  /** updateActivationContent: one Display event, or nothing when the page has no content element. */
  function Shown(hasElement: bool, status: ActivationStatus, customMessage: Value): seq<Event>
  {
    if hasElement then [Display(status, customMessage)] else []
  }

  /** The catch branch: the error state, then the redirect to the home page. */
  function OnError(hasElement: bool, error: Thrown): seq<Event>
  {
    Shown(hasElement, Error, Str(ErrorMessage(error))) + [RedirectByStatus("index.html")]
  }

  /** The try/catch of activateAccount, from the moment the request has been sent. */
  function Conclusion(hasElement: bool, x: Api.Exchange): seq<Event>
  {
    match ActivationResult(x)
    case Err(error) => OnError(hasElement, error)
    case Ok(result) =>
      match SuccessMessage(result)
      case Err(error) => OnError(hasElement, error)
      case Ok(message) => Shown(hasElement, Success, message) + [RedirectByStatus("login.html")]
  }

  /** The state the try/catch of activateAccount displays last: success with its message, or error with the catch's message. */
  function ConclusionDisplay(x: Api.Exchange): (e: Event)
    ensures e.Display? && e.status != Processing
    ensures e.status == Success <==> Succeeded(x)
    ensures Succeeded(x) ==> e.message == SuccessMessage(ActivationResult(x).value).value
    ensures e.status == Error ==> e.message == Str(GENERIC_ERROR_TEXT)
  {
    match ActivationResult(x)
    case Err(error) => Display(Error, Str(ErrorMessage(error)))
    case Ok(result) =>
      match SuccessMessage(result)
      case Err(error) => Display(Error, Str(ErrorMessage(error)))
      case Ok(message) => Display(Success, message)
  }

  /** The activation ends in the success state. */
  predicate Succeeded(x: Api.Exchange)
  {
    ActivationResult(x).Ok? && SuccessMessage(ActivationResult(x).value).Ok?
  }

  /** activateAccount: every event the page produces for a query and the exchange the request gets. */
  function ActivationTrace(query: Query, hasElement: bool, x: Api.Exchange): seq<Event>
  {
    match ExtractActivationParams(query)
    case None => [Navigate(FRONTEND_BASE_URL + "index.html")]
    case Some(params) =>
      Shown(hasElement, Processing, Str("")) + [SendRequest(ActivationRequest(params))] + Conclusion(hasElement, x)
  }

  /** The activation succeeds exactly on an ok reply whose body parses to something other than null. */
  lemma SucceededExactly(x: Api.Exchange)
    ensures Succeeded(x) <==> x.Responded? && x.response.Ok() && x.response.body.Parsed?
                              && !x.response.body.value.Null? && !x.response.body.value.Undefined?
  {
  }

  /** Without both parameters the only event is the redirect home: nothing shown, no request. */
  lemma {:induction false} MissingParamsOnlyRedirect(query: Query, hasElement: bool, x: Api.Exchange)
    requires !("uid" in query && query["uid"] != "" && "token" in query && query["token"] != "")
    ensures ActivationTrace(query, hasElement, x) == [Navigate(FRONTEND_BASE_URL + "index.html")]
    ensures forall e :: e in ActivationTrace(query, hasElement, x) ==> !e.SendRequest? && !e.Display?
  {
  }

  /** After the request: the success state and the login redirect, or the error state and the redirect home. */
  lemma ConclusionShape(hasElement: bool, x: Api.Exchange)
    ensures var c := Conclusion(hasElement, x);
      && |c| == (if hasElement then 2 else 1)
      && c[|c| - 1] == RedirectByStatus(if Succeeded(x) then "login.html" else "index.html")
      && (hasElement ==> c[0].Display? && c[0].status == (if Succeeded(x) then Success else Error))
  {
  }

  /** The conclusion shows the state of `ConclusionDisplay` (when there is a content element) and then redirects. */
  lemma ConclusionShowsDisplay(hasElement: bool, x: Api.Exchange)
    ensures Conclusion(hasElement, x) == Shown(hasElement, ConclusionDisplay(x).status, ConclusionDisplay(x).message)
                                         + [RedirectByStatus(if Succeeded(x) then "login.html" else "index.html")]
  {
  }

  /**
   * The view the page is left with after the request: the success view
   * with its login redirect line, or the error view with the generic text
   * and the home redirect line.
   */
  lemma ConclusionView(x: Api.Exchange)
    ensures var d := ConclusionDisplay(x);
      var v := ViewFor(d.status, d.message);
      && (Succeeded(x) ==> v.titleClass == SUCCESS_CLASS && v.redirectLine == LOGIN_REDIRECT_LINE)
      && (!Succeeded(x) ==> v.titleClass == ERROR_CLASS && v.redirectLine == HOME_REDIRECT_LINE
                            && v.text == GENERIC_ERROR_TEXT && v.title == ERROR_TITLE)
  {
    if !Succeeded(x) {
      StringMessageIsShown(Error, GENERIC_ERROR_TEXT);
    }
  }

  /** After the request, an error state always shows the generic text. */
  lemma ConclusionErrorIsGeneric(hasElement: bool, x: Api.Exchange)
    ensures forall e :: e in Conclusion(hasElement, x) && e.Display? && e.status == Error ==>
              e.message == Str(GENERIC_ERROR_TEXT)
  {
    if !Succeeded(x) {
      var error := if ActivationResult(x).Err? then ActivationResult(x).error
                   else SuccessMessage(ActivationResult(x).value).error;
      assert error.ThrownError?;
      assert Conclusion(hasElement, x) == OnError(hasElement, error);
    }
  }

  /** A non-empty string message replaces the table text of every state. */
  lemma StringMessageIsShown(status: ActivationStatus, m: string)
    requires m != ""
    ensures ViewFor(status, Str(m)).text == m
    ensures ViewFor(status, Str(m)).title == ActivationMessages(status).title
  {
    var c := GetActivationContent(status, Str(m));
    assert ToJsString(Str(m)) == m;
    assert c.text == m;
  }

  /**
   * With both parameters: the processing state first, then the one request
   * to `activate/{uid}/{token}/`, then either the success state and the
   * redirect to the login page, or the error state and the redirect home.
   */
  lemma {:induction false} FlowWithParams(query: Query, hasElement: bool, x: Api.Exchange)
    requires "uid" in query && query["uid"] != "" && "token" in query && query["token"] != ""
    ensures var t := ActivationTrace(query, hasElement, x);
      var k := if hasElement then 1 else 0;
      && |t| == 2 * k + 2
      && (hasElement ==> t[0] == Display(Processing, Str("")))
      && t[k] == SendRequest(ActivationRequest(ActivationParams(query["uid"], query["token"])))
      && (hasElement ==> t[2].Display? && t[2].status == (if Succeeded(x) then Success else Error))
      && t[|t| - 1] == RedirectByStatus(if Succeeded(x) then "login.html" else "index.html")
  {
    var params := ActivationParams(query["uid"], query["token"]);
    assert ExtractActivationParams(query) == Some(params);
    ConclusionShape(hasElement, x);
  }

  /**
   * Whatever the server answers, the error state shows the generic text:
   * everything thrown on the way is an Error object, never a string.
   */
  lemma {:induction false} ErrorStateShowsGenericText(query: Query, hasElement: bool, x: Api.Exchange)
    ensures forall e :: e in ActivationTrace(query, hasElement, x) && e.Display? && e.status == Error ==>
              e.message == Str(GENERIC_ERROR_TEXT)
  {
    ConclusionErrorIsGeneric(hasElement, x);
  }

  /** A 2xx reply `{message: m}` with a non-empty `m` shows `m` in the success state and goes to the login page. */
  lemma ServerMessageShownOnSuccess(query: Query, status: int, m: string)
    requires "uid" in query && query["uid"] != "" && "token" in query && query["token"] != ""
    requires 200 <= status <= 299 && m != ""
    ensures var t := ActivationTrace(query, true, Api.Responded(Api.HttpResponse(status, Api.Parsed(Obj([("message", Str(m))])))));
      |t| == 4 && t[2] == Display(Success, Str(m)) && ViewFor(Success, Str(m)).text == m
      && t[3] == RedirectByStatus("login.html")
  {
    var x := Api.Responded(Api.HttpResponse(status, Api.Parsed(Obj([("message", Str(m))]))));
    assert SuccessMessage(Obj([("message", Str(m))])) == Ok(Str(m));
    FlowWithParams(query, true, x);
    StringMessageIsShown(Success, m);
  }

  /**
   * A 400 reply `{error: "Invalid token"}` ends in the error state with the
   * generic text (not the server's) and the redirect home.
   */
  lemma InvalidTokenShowsGenericText(query: Query)
    requires "uid" in query && query["uid"] != "" && "token" in query && query["token"] != ""
    ensures var t := ActivationTrace(query, true, Api.Responded(Api.HttpResponse(400, Api.Parsed(Obj([("error", Str("Invalid token"))])))));
      |t| == 4 && t[2] == Display(Error, Str(GENERIC_ERROR_TEXT)) && ViewFor(Error, Str(GENERIC_ERROR_TEXT)).text == GENERIC_ERROR_TEXT
      && t[3] == RedirectByStatus("index.html")
  {
    var x := Api.Responded(Api.HttpResponse(400, Api.Parsed(Obj([("error", Str("Invalid token"))]))));
    FlowWithParams(query, true, x);
    ErrorStateShowsGenericText(query, true, x);
    assert ActivationTrace(query, true, x)[2] in ActivationTrace(query, true, x);
    StringMessageIsShown(Error, GENERIC_ERROR_TEXT);
  }

  // ---------------------------------------------------------------------
  // The page and the activation procedure
  // ---------------------------------------------------------------------

  // Identities of event sequences. The methods below call these instead of
  // asserting the equalities in place: stated inline, an equality between
  // concatenations of event sequences sends the solver into a long search,
  // while a call leaves it only the given terms to substitute.

  lemma EventsInOrder(a: seq<Event>, b: seq<Event>, c: seq<Event>, d: seq<Event>)
    ensures a + b + c + d == a + (b + c + d)
  {
  }

  lemma ThenRedirect(a: seq<Event>, b: seq<Event>, destination: string)
    ensures a + b + [RedirectByStatus(destination)] == a + (b + [RedirectByStatus(destination)])
  {
  }

  lemma NothingAppended(trace: seq<Event>)
    ensures trace + [] == trace
  {
  }

  /** The activation page: whether it has the content element, what that element shows, where it was sent, and what happened. */
  class ActivationPage {
    const hasContentElement: bool
    var content: Option<ActivationView>
    var location: Option<string>
    var trace: seq<Event>

    constructor (hasContentElement: bool)
      ensures this.hasContentElement == hasContentElement
      ensures content == None && location == None && trace == []
    {
      this.hasContentElement := hasContentElement;
      content := None;
      location := None;
      trace := [];
    }

    /** updateActivationContent: rewrites the content element, when there is one. */
    method UpdateActivationContent(status: ActivationStatus, customMessage: Value)
      modifies this
      ensures trace == old(trace) + Shown(hasContentElement, status, customMessage)
      ensures hasContentElement ==> content == Some(ViewFor(status, customMessage))
      ensures !hasContentElement ==> content == old(content)
      ensures location == old(location)
    {
      if !hasContentElement {
        NothingAppended(trace);
        return;
      }
      var view := ViewFor(status, customMessage);
      content := Some(view);
      trace := trace + [Display(status, customMessage)];
    }

    /** Assigning window.location.href. */
    method Navigate(url: string)
      modifies this
      ensures location == Some(url) && content == old(content)
      ensures trace == old(trace) + [Event.Navigate(url)]
    {
      location := Some(url);
      trace := trace + [Event.Navigate(url)];
    }

    /** The status redirect, recorded as an event. */
    method Redirect(destination: string)
      modifies this
      ensures location == old(location) && content == old(content)
      ensures trace == old(trace) + [RedirectByStatus(destination)]
    {
      trace := trace + [RedirectByStatus(destination)];
    }

    /** Issuing a fetch, recorded as an event. */
    method Send(request: Api.Request)
      modifies this
      ensures location == old(location) && content == old(content)
      ensures trace == old(trace) + [SendRequest(request)]
    {
      trace := trace + [SendRequest(request)];
    }
  }

  /** handleActivationSuccess: shows the success state, or returns what reading the body threw. */
  method HandleActivationSuccess(page: ActivationPage, result: Value) returns (thrown: Option<Thrown>)
    modifies page
    ensures thrown.Some? <==> SuccessMessage(result).Err?
    ensures thrown.Some? ==> thrown.value == SuccessMessage(result).error && page.trace == old(page.trace)
    ensures thrown.None? ==> page.trace == old(page.trace) + Shown(page.hasContentElement, Success, SuccessMessage(result).value)
    ensures thrown.None? && page.hasContentElement ==> page.content == Some(ViewFor(Success, SuccessMessage(result).value))
    ensures thrown.Some? || !page.hasContentElement ==> page.content == old(page.content)
    ensures page.location == old(page.location)
  {
    var message := SuccessMessage(result);
    if message.Err? {
      return Some(message.error);
    }
    page.UpdateActivationContent(Success, message.value);
    return None;
  }

  /** handleActivationError: shows the error state. */
  method HandleActivationError(page: ActivationPage, error: Thrown)
    modifies page
    ensures page.trace == old(page.trace) + Shown(page.hasContentElement, Error, Str(ErrorMessage(error)))
    ensures page.hasContentElement ==> page.content == Some(ViewFor(Error, Str(ErrorMessage(error))))
    ensures !page.hasContentElement ==> page.content == old(page.content)
    ensures page.location == old(page.location)
  {
    var message := ErrorMessage(error);
    page.UpdateActivationContent(Error, Str(message));
  }

  /** The try/catch of activateAccount, once the request has been sent. */
  method Conclude(page: ActivationPage, x: Api.Exchange)
    modifies page
    ensures page.trace == old(page.trace) + Conclusion(page.hasContentElement, x)
    ensures page.hasContentElement ==> page.content == Some(ViewFor(ConclusionDisplay(x).status, ConclusionDisplay(x).message))
    ensures !page.hasContentElement ==> page.content == old(page.content)
    ensures page.location == old(page.location)
  {
    ghost var before := page.trace;
    var failure: Option<Thrown> := None;
    var result := ActivationResult(x);
    if result.Err? {
      failure := Some(result.error);
    } else {
      failure := HandleActivationSuccess(page, result.value);
      if failure.None? {
        page.Redirect("login.html");
        ThenRedirect(before, Shown(page.hasContentElement, Success, SuccessMessage(result.value).value), "login.html");
      }
    }
    if failure.Some? {
      HandleActivationError(page, failure.value);
      page.Redirect("index.html");
      ThenRedirect(before, Shown(page.hasContentElement, Error, Str(ErrorMessage(failure.value))), "index.html");
    }
  }

  /** activateAccount once both parameters are known: processing state, request, conclusion. */
  method Activate(page: ActivationPage, params: ActivationParams, x: Api.Exchange)
    modifies page
    ensures page.trace == old(page.trace) + Shown(page.hasContentElement, Processing, Str(""))
                          + [SendRequest(ActivationRequest(params))] + Conclusion(page.hasContentElement, x)
    ensures page.hasContentElement ==> page.content == Some(ViewFor(ConclusionDisplay(x).status, ConclusionDisplay(x).message))
    ensures !page.hasContentElement ==> page.content == old(page.content)
    ensures page.location == old(page.location)
  {
    page.UpdateActivationContent(Processing, Str(""));
    page.Send(ActivationRequest(params));
    Conclude(page, x);
  }

  /**
   * activateAccount on a page with the query string `query`, the request
   * (if one is sent) answered by `x`.
   */
  method ActivateAccount(page: ActivationPage, query: Query, x: Api.Exchange)
    modifies page
    ensures page.trace == old(page.trace) + ActivationTrace(query, page.hasContentElement, x)
    ensures ExtractActivationParams(query).None? ==> page.location == Some(FRONTEND_BASE_URL + "index.html")
    ensures ExtractActivationParams(query).Some? ==> page.location == old(page.location)
    ensures ExtractActivationParams(query).Some? && page.hasContentElement ==>
              page.content == Some(ViewFor(ConclusionDisplay(x).status, ConclusionDisplay(x).message))
    ensures ExtractActivationParams(query).None? || !page.hasContentElement ==> page.content == old(page.content)
  {
    var params := ExtractActivationParams(query);
    if params.None? {
      page.Navigate(FRONTEND_BASE_URL + "index.html");
    } else {
      ghost var before := page.trace;
      Activate(page, params.value, x);
      EventsInOrder(before, Shown(page.hasContentElement, Processing, Str("")),
                    [SendRequest(ActivationRequest(params.value))], Conclusion(page.hasContentElement, x));
    }
  }
}
