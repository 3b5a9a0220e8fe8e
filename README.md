# DatakitClient session model

A Dafny model of `DatakitClient`, the client of a data-enrichment API (`lib/datakits.js`).
The client trades an API key for a bearer token at a token endpoint. It keeps the session
(token, instance id, API base URL) in closure variables. It builds request options for two kinds
of request: the token request and the authenticated data request. It also normalises the
transport's answers to the six collection fetches into `(error, data)`.

Modules, one concern each:

- `JsValues` (`js.dfy`): JavaScript values and the three language operations the client relies on.
  These are truthiness (`!error && body.access_token`), property reads with the TypeError on
  null/undefined, and string conversion (`"Bearer " + token`, `"Failed to authenticate: " + body.error`).
- `SessionState` (`session.dfy`): the session value and its validity invariant. Also the
  `isAuthorized`/`getAuthToken` queries, the trailing-slash strip and the authorize completion
  handler as a transition `AuthStep`. `Run` folds that handler over any series of token-endpoint
  answers.
- `RequestBuilder` (`request.dfy`): `getRequestOptions` as a function from session and inputs to
  an options descriptor, plus the GET/POST tagging of `datakitGet`/`datakitPost`.
- `ResponseNormaliser` (`response.dfy`): the handler built by `makeDatakitCallback`, as the list of
  callback invocations it makes.
- `Datakits` (`client.dfy`): the class `DatakitClient`. Its fields are the session and its methods
  are the source's operations. Each request method returns the options object it would hand the
  transport. `OnAuthResponse` updates the fields in place from the transport's result, and its
  contract ties the new state to `AuthStep`.

Foreign calls are inputs. `querystring.stringify` and `JSON.parse` are function-valued constants
passed to the constructor; the parser returns `None` where `JSON.parse` throws. The HTTP transport
is not called: its result (`error`, `res`, `body`) is a parameter of `OnAuthResponse` and of
`DatakitCallback`.

Three consequences of the code a reader might not expect:

- The first token request's form is `{grant_type, apikey}` only. `instance_id` is passed to
  `getRequestOptions` but the form leaves it out (`AuthFormOmitsInstanceId`).
- The data request sets `json` to the whole `data` object rather than to `true`. It also has no
  `strictSSL` field.
- A second `authorize` sees the stored API URL, so it builds a data-shaped POST to
  `apiURL + "/" + authURL + "?" + stringify(undefined)`. It sends bearer headers and no form; the
  API key and the instance id travel in the `json` option (`ReauthorizeBuildsDataRequest`). A fetch before authorization goes out in the token-request shape
  to the bare relative path (`FetchBeforeAuthorize`).

## Model

| member | source | states |
|---|---|---|
| `JsValues.Lookup` | lib/datakits.js:137-144 | Reading a property yields undefined when the key is absent, and any other value it yields is one of the object's own entries. |
| `JsValues.LookupFindsLastOccurrence` | lib/datakits.js:137-144 | When a key occurs more than once, the read yields its last occurrence, as JSON parsing keeps it. |
| `JsValues.Property` | lib/datakits.js:137-144 | `body.key` is undefined on anything but an object. On an object, a defined result is one of its own entries. The read is refused on null/undefined, where the language raises a TypeError. |
| `SessionState.Authorized` | lib/datakits.js:154-156 | On a valid session, `isAuthorized()` holds exactly when an API URL and an instance id are stored, and exactly when the session is not the initial one. |
| `SessionState.AuthToken` | lib/datakits.js:162-164 | `getAuthToken()` returns either null or the stored token. On a valid session it is non-null exactly when the client is authorized. |
| `SessionState.StripTrailingSlash` | lib/datakits.js:140 | The result is a prefix of the URL. It is one character shorter exactly when the URL ends in `/`, and otherwise the URL unchanged. |
| `SessionState.StripUndoesAppendedSlash` | lib/datakits.js:140 | Stripping `url + "/"` gives `url` back. |
| `SessionState.StripKeepsUnslashedUrl` | lib/datakits.js:140 | A URL that does not end in `/` is stored as given. |
| `SessionState.StripRemovesOnlyOneSlash` | lib/datakits.js:140 | `"a//"` becomes `"a/"`. `"https://api.example.com/"` loses its slash, and `"https://api.example.com"` is kept. |
| `SessionState.AuthStep` | lib/datakits.js:136-147 | Success (no error and a truthy `access_token`) is exactly the case that invokes the callback with `(res, body)`. It stores the token, the instance id, the stripped API URL, `expiration` as expiry and the body as defaults, and leaves the client authorized with that token. Otherwise the session is unchanged and the outcome is a TypeError for a null/undefined body, the exception `"Failed to authenticate: " + body.error` when `body.error` is truthy, or no callback at all. Validity is preserved. |
| `SessionState.RunKeepsValid` | lib/datakits.js:130-147 | After any series of token-endpoint answers, a valid session stays valid. |
| `SessionState.RunWithoutSuccess` | lib/datakits.js:136-147 | Answers that are not successes leave the session exactly as it was. |
| `SessionState.RunAuthorized` | lib/datakits.js:11-13 | A fresh client is authorized after a series of answers if and only if one of them was a success. |
| `SessionState.RunIgnoresLaterFailures` | lib/datakits.js:136-147 | Answers that are not successes, arriving after a series of exchanges, leave the session that series produced unchanged. |
| `SessionState.RunKeepsLastSuccess` | lib/datakits.js:138-142 | After a series of answers, the stored token, instance id, API URL, expiry and defaults are those of the last successful answer. |
| `RequestBuilder.RequestOptions` | lib/datakits.js:24-61 | With no API URL stored, the token shape: `url = path`, no headers, form `{grant_type: "urn:ibm:params:oauth:grant-type:apikey", apikey: data.api_key}`, timeout 120000, strictSSL true, json true. Otherwise the data shape: `url = apiURL + "/" + path + "?" + stringify(data.params)`, headers `Bearer <token>` and the instance id, no form, timeout 120000, json = data. In both shapes no method is set. |
| `RequestBuilder.Tagged` | lib/datakits.js:71-89 | The descriptor handed to the transport carries the given method and is otherwise the built options. |
| `RequestBuilder.ShapeChosenByApiUrl` | lib/datakits.js:24-39 | Without a stored API URL, the options do not depend on the rest of the session or on the `type` argument. |
| `RequestBuilder.KindIgnored` | lib/datakits.js:24-61 | With or without a stored API URL, the `type` argument has no effect on the options. |
| `RequestBuilder.AuthFormOmitsInstanceId` | lib/datakits.js:28-31 | The unauthenticated token request is a POST whose form carries the API key. The instance id has no effect on it. |
| `RequestBuilder.ReauthorizeBuildsDataRequest` | lib/datakits.js:41-58 | On an authorized client, `authorize` builds a POST to `apiURL + "/" + authURL + "?" + stringify(undefined)` with headers and no form, carrying the API key and instance id in the `json` option. |
| `RequestBuilder.FetchBeforeAuthorize` | lib/datakits.js:26-39 | A fetch on a fresh client is a GET to the bare path, without headers and with a form whose API key is absent. |
| `ResponseNormaliser.NormalisedData` | lib/datakits.js:98-113 | A transport error gives null data. Data is always null, the body itself, or the parse of a string body. An object-typed body with no error passes through unchanged. |
| `ResponseNormaliser.DatakitCallback` | lib/datakits.js:96-118 | A present callback is invoked exactly once and an absent one never. The invocation receives the transport's own error and the normalised data. |
| `ResponseNormaliser.DataPresentIff` | lib/datakits.js:98-113 | Data is non-null if and only if there was no transport error and the body is an array or object, or text that parses to a non-null value. |
| `ResponseNormaliser.TransportErrorYieldsNullData` | lib/datakits.js:100-117 | A transport error reaches the callback as that error with null data, never both null. |
| `ResponseNormaliser.UnparsableTextIsSilent` | lib/datakits.js:101-108 | Text that fails to parse reaches the callback as no error and null data. |
| `ResponseNormaliser.ParsedTextDelivered` | lib/datakits.js:101-105 | Text that parses reaches the callback as the parsed value with no error. |
| `ResponseNormaliser.ScalarBodyYieldsNull` | lib/datakits.js:98-113 | An undefined, boolean or number body reaches the callback as null data. |
| `ResponseNormaliser.CountryListingPassesThrough` | lib/datakits.js:110-112 | An already-parsed country listing is delivered unchanged, and its first result's `name` is `"France"`. |
| `Datakits.DatakitClient.constructor` | lib/datakits.js:10-15 | A new client holds the initial session, which is valid, is not authorized and has a null token. |
| `Datakits.DatakitClient.IsAuthorized` | lib/datakits.js:154-156 | On a valid client, it holds exactly when an API URL and an instance id are stored. |
| `Datakits.DatakitClient.GetAuthToken` | lib/datakits.js:162-164 | It returns null or the stored token. On a valid client it is non-null exactly when `IsAuthorized()` holds. |
| `Datakits.DatakitClient.GetRequestOptions` | lib/datakits.js:24-61 | The options built step by step (with `headers` copied on at the end) equal `RequestOptions` of the current session: the token shape without a stored API URL, the data shape with one. |
| `Datakits.DatakitClient.DatakitGet` | lib/datakits.js:71-75 | The method is GET and everything else is the built options. |
| `Datakits.DatakitClient.DatakitPost` | lib/datakits.js:85-89 | The method is POST and everything else is the built options. |
| `Datakits.DatakitClient.Authorize` | lib/datakits.js:130-135 | It builds a POST of the `{api_key, instance_id}` data to the token URL and captures the API URL and instance id for the handler. Before authorization it sends the token-shaped form with the API key and no headers. |
| `Datakits.DatakitClient.OnAuthResponse` | lib/datakits.js:136-147 | The new fields and the outcome are `AuthStep` of the old state. On success it stores the instance id and the stripped API URL, `isAuthorized()` holds and `getAuthToken()` returns `body.access_token`. In every other outcome all five fields are unchanged. A valid client stays valid. |
| `Datakits.DatakitClient.GetCategories` | lib/datakits.js:171-176 | A GET to `v1/categories` with no `params`. When authorized, the URL is `apiURL + "/v1/categories?" + stringify(undefined)`. |
| `Datakits.DatakitClient.GetCountries` | lib/datakits.js:183-188 | A GET to `v1/countries` with no `params`. When authorized, the URL is `apiURL + "/v1/countries?" + stringify(undefined)`. |
| `Datakits.DatakitClient.GetAttractions` | lib/datakits.js:195-201 | A GET to `v1/attractions` forwarding the caller's `params` into the query and the JSON body. |
| `Datakits.DatakitClient.GetConcepts` | lib/datakits.js:208-214 | A GET to `v1/concepts` forwarding the caller's `params`. |
| `Datakits.DatakitClient.GetEntities` | lib/datakits.js:221-227 | A GET to `v1/entities` forwarding the caller's `params`. |
| `Datakits.DatakitClient.GetKeywords` | lib/datakits.js:234-240 | A GET to `v1/keywords` forwarding the caller's `params`. |

## Left out

- The HTTP transport (`request`): connections, TLS and what `strictSSL` does, and the 120-second timeout's effect. These are network I/O in a foreign library. The model stops at the options object handed over, and takes the transport's `(error, res, body)` as an input value. A transport error is represented by its message.
- The internals of `querystring.stringify` and `JSON.parse`. They are foreign calls, injected as the function-valued constants `stringify` and `parse`. So the order and the percent-encoding of query parameters are not modelled.
- Asynchronous scheduling, and races between concurrent `authorize` and fetch calls. This is event-loop concurrency. `Run` models the handlers running one after another.
- What the thrown `"Failed to authenticate: ..."` exception and the TypeError do beyond the handler. They are uncaught in a transport callback. The model records them as outcomes that leave the session unchanged.
- The TypeError `authorize` raises on success when its `callback` argument is not a function. `Completed` stands for the callback being invoked.
- JavaScript numbers are modelled as integers: no fractions, NaN or infinities. Number-to-string conversion is therefore the decimal form of an integer.
- Property reads see only an object's own properties. Inherited ones such as `constructor` are not modelled, and neither are array or string properties such as `length`.
- The arguments of `authorize` are modelled as strings. A non-string `apiURL` would raise a TypeError at `replace`, and that is not modelled.
- The `res` argument is not used by the fetch normaliser (`makeDatakitCallback`), so the model leaves it out there.
- `example/travel.js` is not part of this model. It is a demo script that only calls the client and prints results.
