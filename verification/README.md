# Coderr front end: request helpers, form flattening and account activation

A Dafny model of the browser-side core of the Coderr front end:

- **Form flattening** (`jsonToFormData`). A nested JSON-like value is walked
  depth first in `Object.keys` order. Every leaf goes into a `FormData`
  accumulator under a bracket-path name (`a[b][c]`). Dates, Files, `null` and
  primitives are leaves. Objects and arrays are descended into; array indices
  become keys.
- **Credential store and auth header.** The `auth-token`, `auth-user` and
  `auth-user-id` entries of `localStorage` are set, removed and read. The
  stored token becomes an `Authorization: Token <token>` header.
- **Request helpers.** Six verb wrappers (`getData`, `postData`,
  `postDataWJSON`, `patchDataWoFiles`, `patchData`, `deleteData`) are modelled.
  For each one the model states the request it sends (method, URL, headers,
  body). It also states the outcome it returns for a transport result: either
  `{ok, status, data}` or `{ok: false, status: 'error', message}`, with the
  message chosen by `getErrorMessage`.
- **Account activation.** The activation page reads `uid` and `token` from the
  query string and sends `GET activate/{uid}/{token}/`. It shows the
  processing, success or error state, then redirects.

Modules, one per concern:

| file | module | what it holds |
|---|---|---|
| `js_model.dfy` | `JsModel` | JavaScript values, truthiness, `String()` coercion, thrown errors, property reads |
| `config.dfy` | `Config` | the base URLs and the activation message table |
| `form_encoding.dfy` | `FormEncoding` | `jsonToFormData` as a `FormData` class and a recursive walk with its key loop, proved against the pure `Flatten` and against an independent leaf-path definition (`Leaves` + `RenderAll`) |
| `credentials.dfy` | `Credentials` | `localStorage` as a class over a `map`, the credential setters, getters and `createHeaders` |
| `api.dfy` | `Api` | `getErrorMessage`, the outcome rule (`Settle`) and the six wrappers |
| `activation.dfy` | `Activation` | parameter extraction, `processActivation`, message and presentation choice, the page as a class with a trace of events, and `activateAccount` |

The activation procedure is modelled twice over. `ActivationTrace` is a pure
function giving every observable event. `ActivateAccount` is the step-by-step
method acting on an `ActivationPage` object. The method's postcondition ties
the page's new trace to `ActivationTrace`, and the flow properties are proved
about that function.

## Model

| member | source | states |
|---|---|---|
| JsModel.TypeOf | coderr/shared/scripts/api.js:29 | the `typeof` operator: "object" for null, Dates, Files, arrays and plain objects, the primitive's own type name otherwise |
| JsModel.CompositeIsTruthyObject | coderr/shared/scripts/api.js:29 | the four-part guard (truthy, `typeof` "object", not a Date, not a File) holds exactly for arrays and plain objects; null passes the `typeof` test and fails only by being falsy |
| JsModel.NatToString | coderr/shared/scripts/api.js:30 | an array index key is a non-empty run of decimal digits, one digit exactly for indices below 10 |
| JsModel.NatToStringIsNumeral | coderr/shared/scripts/api.js:30 | the key is the decimal numeral of the index: no leading zero, and its digits, read most significant first, denote the index |
| JsModel.Property | coderr/scripts/activate_account.js:68 | reading a property throws a TypeError exactly for null and undefined; a plain object gives its field's value (undefined when absent); any other value gives undefined |
| FormEncoding.ChildKey | coderr/shared/scripts/api.js:31 | the name of a member: `parent[key]` under a non-empty parent name, the key alone under an empty one; `RenderNested` and `RenderFromRoot` state what repeated application gives |
| FormEncoding.Flatten | coderr/shared/scripts/api.js:28-36 | the fields the closure appends for a value under a name: a composite's members in key order, anything else as one field; characterised independently by `FlattenIsRenderedLeaves` |
| FormEncoding.FlattenMembers | coderr/shared/scripts/api.js:30-32 | the fields of the members from the i-th key on, each under its child name; characterised by `FlattenMembersIsRenderedLeaves` |
| FormEncoding.ObjectKeys | coderr/shared/scripts/api.js:30 | `Object.keys` lists one key per member, the i-th being the i-th member's key (its index for an array) |
| FormEncoding.FormData.Append | coderr/shared/scripts/api.js:34 | `formData.append` adds one field at the end and changes nothing else |
| FormEncoding.AppendFormData | coderr/shared/scripts/api.js:28-36 | the recursive closure appends exactly `Flatten(data, parentKey)` after what the form held |
| FormEncoding.AppendMembers | coderr/shared/scripts/api.js:29-32 | the `forEach` over the keys appends the members' fields one member after the other, in key order |
| FormEncoding.JsonToFormData | coderr/shared/scripts/api.js:25-41 | a new form holding exactly the flattening of `json` from the empty name |
| FormEncoding.FlattenIsRenderedLeaves | coderr/shared/scripts/api.js:28-38 | the fields are the value's leaves in depth-first key order, one field per leaf, each carrying its leaf unchanged and named by rendering its key path |
| FormEncoding.FlattenMembersIsRenderedLeaves | coderr/shared/scripts/api.js:30-32 | the same, for the members from the i-th key on |
| FormEncoding.RenderNested | coderr/shared/scripts/api.js:31 | under a non-empty name `p`, the path `k1..kn` is named `p[k1]...[kn]` |
| FormEncoding.RenderFromRoot | coderr/shared/scripts/api.js:31-38 | a top-level key `k` is named `k` with no prefix and its descendants `k[c]...`; a child of an empty key gets no prefix at all |
| FormEncoding.FlattenKeysUnderParent | coderr/shared/scripts/api.js:31 | every field of a value named `p` (non-empty) is `p` followed by its bracketed path, and there is one per leaf |
| FormEncoding.FlattenAppendsOnlyLeaves | coderr/shared/scripts/api.js:29-35 | no array or object is ever passed to `append` |
| FormEncoding.FlattenMembersAppend | coderr/shared/scripts/api.js:30-32 | the members of `a + b` give the fields of `a`'s members followed by those of `b`'s |
| FormEncoding.FlattenObjectOrder | coderr/shared/scripts/api.js:30-32 | the first key's fields come before all fields of the remaining keys |
| FormEncoding.FlattenEmpty | coderr/shared/scripts/api.js:30 | an empty object or array contributes no field |
| FormEncoding.FlattenLeaf | coderr/shared/scripts/api.js:33-38 | a leaf is appended once, unchanged, under its name; a non-object root goes under `''` |
| FormEncoding.FlattenExample | coderr/shared/scripts/api.js:25-41 | `{a: 1, b: {c: 2, d: 3}}` gives `a=1`, `b[c]=2`, `b[d]=3` in that order |
| Credentials.LocalStorage.SetItem | coderr/shared/scripts/api.js:2-4 | `setItem` stores the string the value coerces to under the key and changes no other key |
| Credentials.SetAuthCredentials | coderr/shared/scripts/api.js:1-5 | the three keys are stored, each holding the string its argument coerces to; the user name goes under `auth-user` and the id under `auth-user-id`; every other key is unchanged |
| Credentials.RemoveAuthCredentials | coderr/shared/scripts/api.js:7-11 | exactly the three credential keys are deleted; the getters then give null and no Authorization header is built |
| Credentials.GetAuthToken | coderr/shared/scripts/api.js:13-15 | the value stored under `auth-token`, null when absent |
| Credentials.GetAuthUser | coderr/shared/scripts/api.js:17-19 | the value stored under `auth-user`, null when absent |
| Credentials.GetAuthUserId | coderr/shared/scripts/api.js:21-23 | the value stored under `auth-user-id`, null when absent |
| Credentials.AuthHeaders | coderr/shared/scripts/api.js:43-52 | the headers hold at most `Authorization`, present exactly when a non-empty token is stored, with the value `Token <token>` |
| Credentials.CreateHeaders | coderr/shared/scripts/api.js:43-52 | filling an empty dictionary in place yields exactly those headers |
| Credentials.CredentialRoundTrip | coderr/shared/scripts/api.js:1-23 | after storing `(t, id, u)` the getters return the stored strings (a string argument unchanged), whatever was stored before; the header is `Token t` for non-empty `t` and absent for empty `t` |
| Credentials.MissingTokenIsSentAsText | coderr/shared/scripts/api.js:43-52 | an undefined or null token given to `setAuthCredentials` is stored as the text "undefined" or "null", which is truthy, so the header becomes `Token undefined` or `Token null` |
| Api.Includes | coderr/shared/scripts/api.js:57 | `includes` is true exactly when the substring occurs at some index |
| Api.GetErrorMessage | coderr/shared/scripts/api.js:54-70 | each of the four messages is returned exactly under its condition: "Failed to fetch" in the text first, then SyntaxError, then TypeError, then the fallback |
| Api.FailedFetchTakesPrecedence | coderr/shared/scripts/api.js:57-67 | any error whose text contains "Failed to fetch", whatever its class, gives the connection message |
| Api.Settle | coderr/shared/scripts/api.js:72-93 | a reply with a parseable body, or any reply when the body is not read, gives `{ok: response.ok, status, data}`; a throw from fetch or from parsing gives the failure shape with `getErrorMessage`'s text, one of the four messages |
| Api.ErrorStatusPassesThrough | coderr/shared/scripts/api.js:78-83 | a 4xx/5xx reply with a parseable body is an answer with `ok` false and the reply's status, not a failure |
| Api.NetworkFailureOutcome | coderr/shared/scripts/api.js:85-91 | fetch's "Failed to fetch" TypeError gives the connection message |
| Api.OutcomeShapes | coderr/shared/scripts/api.js:72-93 | every outcome has exactly one of the two shapes; a failure is never ok and comes only from a fetch throw or an unparseable body |
| Api.GetData | coderr/shared/scripts/api.js:72-93 | a GET to the base URL plus endpoint with the auth headers and no Content-Type; the outcome reads the body |
| Api.PostData | coderr/shared/scripts/api.js:95-123 | a JSON POST whose only header is `Content-Type: application/json`, never Authorization |
| Api.JsonHeaders | coderr/shared/scripts/api.js:127-128 | the auth headers plus `Content-Type: application/json`, every other header unchanged |
| Api.PostDataWJson | coderr/shared/scripts/api.js:125-151 | a JSON POST with the auth headers and Content-Type |
| Api.PatchDataWoFiles | coderr/shared/scripts/api.js:153-178 | a JSON PATCH with the auth headers and Content-Type |
| Api.PatchData | coderr/shared/scripts/api.js:180-206 | a multipart PATCH with the auth headers only, no Content-Type |
| Api.DeleteData | coderr/shared/scripts/api.js:208-229 | a DELETE with the auth headers only; the body is never parsed and the data of an answer is always `{}` |
| Api.AuthorizationByVerb | coderr/shared/scripts/api.js:72-229 | every wrapper but postData carries `Authorization: Token <t>` exactly when a non-empty token `t` is stored; postData never does |
| Activation.ExtractParams | coderr/scripts/activate_account.js:11-20 | both values exactly when both are present and non-empty, null otherwise |
| Activation.ExtractActivationParams | coderr/scripts/activate_account.js:49-55 | `(uid, token)` exactly when both are present and non-empty; the second check agrees with `extractParams` on every query |
| Activation.ActivationEndpoint | coderr/scripts/activate_account.js:80 | the path `activate/{uid}/{token}/`; `ActivationEndpointInjective` shows it determines the parameters |
| Activation.ActivationRequest | coderr/scripts/activate_account.js:79-90 | a GET to `API_BASE_URL + "activate/" + uid + "/" + token + "/"` with a JSON Content-Type, no body, credentials included |
| Activation.ActivationEndpointInjective | coderr/scripts/activate_account.js:80 | when the uid holds no `/`, two parameter pairs with the same path are equal |
| Activation.FailureOf | coderr/scripts/activate_account.js:67-68 | a non-ok reply with an object body throws an Error whose text is `String(result.error)` when that is truthy, "Activation failed" otherwise; an array, string, number or boolean body gives "Activation failed"; a null body throws a TypeError |
| Activation.ActivationResult | coderr/scripts/activate_account.js:63-71 | the parsed body is returned unchanged exactly for an ok reply that parses; every other case throws an Error object (fetch failure, invalid JSON, non-ok reply) |
| Activation.SuccessMessage | coderr/scripts/activate_account.js:97-99 | the text is `result.message` when truthy, "Account successfully activated!" otherwise, always truthy; a null body throws a TypeError |
| Activation.ErrorMessage | coderr/scripts/activate_account.js:108-110 | a thrown string is shown as is; an Error object gives the generic text |
| Activation.GetActivationContent | coderr/scripts/activate_account.js:135-141 | icon and title always come from the status's table entry; the text is the custom message when truthy, the table's text otherwise |
| Activation.BuildActivationHTML | coderr/scripts/activate_account.js:150-158 | success: `activation-success-text` and "Redirecting to login..."; error: `font_error_color` and "Redirecting to homepage..."; processing: `font_prime_color` and no redirect line; the content passes through |
| Activation.PresentationDeterminesStatus | coderr/scripts/activate_account.js:150-158 | the title class tells the three states apart, and only the processing state has no redirect line |
| Activation.StringMessageIsShown | coderr/scripts/activate_account.js:135-141 | a non-empty string message becomes the shown text of any state, under that state's title |
| Activation.OnError | coderr/scripts/activate_account.js:37-40 | the catch branch: the error state with `handleActivationError`'s message, then the redirect to `index.html` |
| Activation.Conclusion | coderr/scripts/activate_account.js:33-40 | the events of the try/catch once the request is sent; `ConclusionShape` and `ConclusionShowsDisplay` state its form |
| Activation.ConclusionDisplay | coderr/scripts/activate_account.js:33-40 | the state shown last: success exactly when the activation succeeded, with the success message; otherwise error with the generic text; never processing |
| Activation.ConclusionShowsDisplay | coderr/scripts/activate_account.js:33-40 | the try/catch shows `ConclusionDisplay`'s state (when the page has the element) and then redirects to `login.html` on success, `index.html` otherwise |
| Activation.ConclusionView | coderr/scripts/activate_account.js:33-40 | the page is left with the success view and its login redirect line, or the error view (error title, generic text) and its home redirect line |
| Activation.ActivationTrace | coderr/scripts/activate_account.js:25-41 | every event of `activateAccount` for a query and the exchange its request gets; `MissingParamsOnlyRedirect` and `FlowWithParams` state its two forms |
| Activation.SucceededExactly | coderr/scripts/activate_account.js:33-40 | the success path is taken exactly for an ok reply whose body parses to something other than null |
| Activation.MissingParamsOnlyRedirect | coderr/scripts/activate_account.js:25-30 | without both parameters the only event is the redirect to `FRONTEND_BASE_URL + "index.html"`: nothing shown, no request |
| Activation.ConclusionShape | coderr/scripts/activate_account.js:33-40 | after the request: success then the login redirect, or error then the home redirect |
| Activation.ConclusionErrorIsGeneric | coderr/scripts/activate_account.js:33-40 | after the request, the error state is always given the generic text |
| Activation.FlowWithParams | coderr/scripts/activate_account.js:25-41 | with both parameters: processing first, then the one activation request, then success and `login.html` or error and `index.html` |
| Activation.ErrorStateShowsGenericText | coderr/scripts/activate_account.js:63-112 | whatever the server answers, the error state shows the generic text: everything thrown is an Error object |
| Activation.ServerMessageShownOnSuccess | coderr/scripts/activate_account.js:97-99 | a 2xx reply `{message: m}` with non-empty `m` shows `m` in the success state, then goes to the login page |
| Activation.InvalidTokenShowsGenericText | coderr/scripts/activate_account.js:63-112 | a 400 reply `{error: "Invalid token"}` shows the generic text, not the server's, and redirects home |
| Activation.ActivationPage.UpdateActivationContent | coderr/scripts/activate_account.js:120-126 | with a content element, it is rewritten with the view for the status and message; without one, nothing changes |
| Activation.ActivationPage.Navigate | coderr/scripts/activate_account.js:28 | assigning the location records the navigation |
| Activation.ActivationPage.Redirect | coderr/scripts/activate_account.js:36-39 | the status redirect is recorded with its destination |
| Activation.ActivationPage.Send | coderr/scripts/activate_account.js:82-88 | issuing the fetch is recorded with its request |
| Activation.HandleActivationSuccess | coderr/scripts/activate_account.js:97-101 | shows the success state with the chosen message (the content element then holds the success view), or returns the TypeError of reading `message` from a null body with the page unchanged |
| Activation.HandleActivationError | coderr/scripts/activate_account.js:108-112 | shows the error state with the chosen message; the content element then holds the error view |
| Activation.Conclude | coderr/scripts/activate_account.js:33-40 | the try/catch after the request adds exactly the events of `Conclusion` and leaves the content element holding the view of `ConclusionDisplay` |
| Activation.Activate | coderr/scripts/activate_account.js:31-40 | processing state, the request, then the conclusion; the content element ends with the conclusion's view |
| Activation.ActivateAccount | coderr/scripts/activate_account.js:25-41 | the page's events are exactly `ActivationTrace(query, …)`; the location is set to the home page only when a parameter is missing; with both parameters the content element ends with the view of `ConclusionDisplay`, and otherwise the content is untouched |

## Left out

- `fetch`, `response.json()`, `localStorage`, `window.location` and the DOM are not executed. Each request's transport result is an input (`Api.Exchange`). A failed fetch, an unparseable body or a reply is chosen by the caller. `localStorage` is a class over a `map`. The parsed query string is a `map`. Assigning `innerHTML` is the page's `content` field.
- `async`/`await` is treated as sequential: each action awaits one request, and nothing runs in between.
- Numbers are integers (`Num(int)`). Floating point, `NaN` and `-0` are not modelled; `String()` of a number is its decimal form.
- A Date's `String()` text is carried in the value (`DateVal(text)`) rather than computed. A File is its name, and `String()` of it is `[object File]`.
- `JSON.stringify` of a request body is not modelled: the body is the value itself (`JsonText(data)`). The string coercion `FormData.append` applies to leaf values is not modelled either: a field keeps the value it was appended with.
- `Property` reads only the two properties the activation script reads, `error` and `message`. Values other than plain objects are given no properties. Prototype properties (an array's `length`, for instance) are not modelled.
- Objects are assumed to have distinct keys in `Object.keys` order; a field list with a repeated key is outside the model.
- `response.ok` is modelled as the status being in 200–299.
- `getFormData` (coderr/shared/scripts/api.js:231-234) is a thin wrapper over `FormData` and `Object.fromEntries` and is not modelled.
- `forgotPasswordSubmit` and `forgetPassword` (coderr/scripts/activate_account.js:173-196) only log to the console. The `console.log` calls in `postData` (coderr/shared/scripts/api.js:113-115) have no observable effect either. None of them is modelled.
- `initActivation` (coderr/scripts/activate_account.js:1-3) only calls `activateAccount` and is not modelled separately.
- `redirectToDestinationBasedOnActivationStatus` is not part of this model. Its calls are recorded as `RedirectByStatus(destination)` events. It is assumed not to throw, so the catch branch is never entered from the success path's redirect.
- The HTML markup of `buildActivationHTML` is not modelled. The view holds what the markup is built from: the title class, icon, title, text and redirect line. In the same way, a `Display` event records the status and message `updateActivationContent` was called with, and the page's `content` holds the view built from them.
- Of the configuration, only `API_BASE_URL`, `FRONTEND_BASE_URL` and the activation message table are modelled; the guest logins and endpoint constants are not.
- Activation.InvalidTokenShowsGenericText: the server's error text never reaches the page. `processActivation` throws an Error object carrying it, and `handleActivationError` shows only thrown strings, so a 400 reply `{error: "Invalid token"}` shows the generic text. The lemma states this behaviour of the code.
