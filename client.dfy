/** The `DatakitClient` object: its session state, the authorize exchange and the
    six collection fetches. Each operation returns the options object it hands
    the HTTP transport; the transport's completion arrives later as a value, in
    `OnAuthResponse` for `authorize` and in `ResponseNormaliser.DatakitCallback`
    for the fetches. */
module Datakits {
  import opened JsValues
  import opened SessionState
  import opened RequestBuilder

  class DatakitClient {
    /** The host's `querystring.stringify`. */
    const stringify: JsValue -> string
    /** The host's `JSON.parse`, `None` standing for its exception. */
    const parse: string -> Option<JsValue>

    var xAuthToken: JsValue
    var xInstanceId: Option<string>
    var xApiUrl: Option<string>
    var expires: JsValue
    var defaults: JsValue

    function State(): Session
      reads this
    {
      Session(xAuthToken, xInstanceId, xApiUrl, expires, defaults)
    }

    predicate Valid()
      reads this
    {
      SessionState.Valid(State())
    }

    /** `new DatakitClient()`, given the host's serialiser and parser. */
    constructor (stringify: JsValue -> string, parse: string -> Option<JsValue>)
      ensures State() == Initial && Valid()
      ensures this.stringify == stringify && this.parse == parse
      ensures !IsAuthorized() && GetAuthToken() == Null
    {
      this.stringify := stringify;
      this.parse := parse;
      xAuthToken := Null;
      xInstanceId := None;
      xApiUrl := None;
      expires := Undefined;
      defaults := Undefined;
    }

    /** `isAuthorized()` */
    function IsAuthorized(): (b: bool)
      reads this
      ensures Valid() ==> (b <==> xApiUrl.Some?) && (b <==> xInstanceId.Some?)
    {
      Authorized(State())
    }

    /** `getAuthToken()` */
    function GetAuthToken(): (r: JsValue)
      reads this
      ensures r == Null || r == xAuthToken
      ensures Valid() ==> (r != Null <==> IsAuthorized())
    {
      AuthToken(State())
    }

    /** `getRequestOptions(path, type, data)`, step by step: the options object is
        built for one of the two shapes and `headers`, which only the data branch
        assigns, is then copied onto it. */
    method GetRequestOptions(path: string, kind: string, data: RequestData) returns (opts: Options)
      ensures opts == RequestOptions(State(), stringify, path, kind, data)
      ensures xApiUrl.None? ==> IsAuthShape(opts, path, data)
      ensures xApiUrl.Some? ==> IsDataShape(opts, State(), stringify, path, data)
    {
      var headers: Option<Headers> := None;
      if xApiUrl == None {
        var form := Form(GrantType, data.apiKey);
        opts := Options(path, None, None, Some(form), TimeoutMs, Some(true), JsonFlag(true));
      } else {
        headers := Some(Headers("Bearer " + ToString(xAuthToken), xInstanceId));
        var params := stringify(data.params);
        opts := Options(xApiUrl.value + "/" + path + "?" + params, None, headers, None, TimeoutMs, None, JsonBody(data));
      }
      opts := opts.(headers := headers);
    }

    /** `datakitGet`: the built options with the method set to GET. */
    method DatakitGet(path: string, kind: string, data: RequestData) returns (opts: Options)
      ensures opts.verb == Some(GET)
      ensures opts.(verb := None) == RequestOptions(State(), stringify, path, kind, data)
    {
      opts := GetRequestOptions(path, kind, data);
      opts := opts.(verb := Some(GET));
    }

    /** `datakitPost`: the built options with the method set to POST. */
    method DatakitPost(path: string, kind: string, data: RequestData) returns (opts: Options)
      ensures opts.verb == Some(POST)
      ensures opts.(verb := None) == RequestOptions(State(), stringify, path, kind, data)
    {
      opts := GetRequestOptions(path, kind, data);
      opts := opts.(verb := Some(POST));
    }

    /** `authorize(authURL, apiURL, apiKey, instanceId, callback)`: the token
        request, and the values its completion handler captures. */
    method Authorize(authUrl: string, apiUrl: string, apiKey: string, instanceId: string)
      returns (opts: Options, pending: Pending)
      ensures opts == AuthOptions(State(), stringify, authUrl, apiKey, instanceId)
      ensures pending == Pending(apiUrl, instanceId)
      ensures xApiUrl.None? ==>
        && opts.url == authUrl && opts.verb == Some(POST) && opts.headers == None
        && opts.form == Some(Form(GrantType, Some(apiKey)))
    {
      opts := DatakitPost(authUrl, "auth", RequestData(Some(apiKey), Some(instanceId), Undefined));
      pending := Pending(apiUrl, instanceId);
    }

    /** The completion handler of `authorize`, run on the transport's result. */
    method OnAuthResponse(pending: Pending, response: AuthResponse) returns (outcome: AuthOutcome)
      modifies this
      ensures AuthResult(State(), outcome) == AuthStep(old(State()), pending, response)
      ensures old(Valid()) ==> Valid()
      ensures outcome.Completed? ==>
        && xInstanceId == Some(pending.instanceId)
        && xApiUrl == Some(StripTrailingSlash(pending.apiUrl))
        && IsAuthorized() && GetAuthToken() == Property(response.body, "access_token")
      ensures !outcome.Completed? ==> State() == old(State())
    {
      var body := response.body;
      if IsNullish(body) {
        outcome := TypeError;
      } else if response.error.None? && Truthy(Property(body, "access_token")) {
        xAuthToken := Property(body, "access_token");
        xInstanceId := Some(pending.instanceId);
        xApiUrl := Some(StripTrailingSlash(pending.apiUrl));
        expires := Property(body, "expiration");
        defaults := body;
        outcome := Completed(response.res, body);
      } else if Truthy(Property(body, "error")) {
        outcome := Thrown(FailurePrefix + ToString(Property(body, "error")));
      } else {
        outcome := NoCallback;
      }
    }

    /** `getCategories(callback)` */
    method GetCategories() returns (opts: Options)
      ensures opts == FetchOptions(State(), stringify, CategoriesPath, Undefined)
      ensures opts.verb == Some(GET)
      ensures xApiUrl.Some? ==> opts.url == xApiUrl.value + "/v1/categories?" + stringify(Undefined)
    {
      opts := DatakitGet(CategoriesPath, "data", FetchData(Undefined));
    }

    /** `getCountries(callback)` */
    method GetCountries() returns (opts: Options)
      ensures opts == FetchOptions(State(), stringify, CountriesPath, Undefined)
      ensures opts.verb == Some(GET)
      ensures xApiUrl.Some? ==> opts.url == xApiUrl.value + "/v1/countries?" + stringify(Undefined)
    {
      opts := DatakitGet(CountriesPath, "data", FetchData(Undefined));
    }

    /** `getAttractions(params, callback)` */
    method GetAttractions(params: JsValue) returns (opts: Options)
      ensures opts == FetchOptions(State(), stringify, AttractionsPath, params)
      ensures opts.verb == Some(GET)
      ensures xApiUrl.Some? ==> opts.url == xApiUrl.value + "/v1/attractions?" + stringify(params)
    {
      opts := DatakitGet(AttractionsPath, "data", FetchData(params));
    }

    /** `getConcepts(params, callback)` */
    method GetConcepts(params: JsValue) returns (opts: Options)
      ensures opts == FetchOptions(State(), stringify, ConceptsPath, params)
      ensures opts.verb == Some(GET)
      ensures xApiUrl.Some? ==> opts.url == xApiUrl.value + "/v1/concepts?" + stringify(params)
    {
      opts := DatakitGet(ConceptsPath, "data", FetchData(params));
    }

    /** `getEntities(params, callback)` */
    method GetEntities(params: JsValue) returns (opts: Options)
      ensures opts == FetchOptions(State(), stringify, EntitiesPath, params)
      ensures opts.verb == Some(GET)
      ensures xApiUrl.Some? ==> opts.url == xApiUrl.value + "/v1/entities?" + stringify(params)
    {
      opts := DatakitGet(EntitiesPath, "data", FetchData(params));
    }

    /** `getKeywords(params, callback)` */
    method GetKeywords(params: JsValue) returns (opts: Options)
      ensures opts == FetchOptions(State(), stringify, KeywordsPath, params)
      ensures opts.verb == Some(GET)
      ensures xApiUrl.Some? ==> opts.url == xApiUrl.value + "/v1/keywords?" + stringify(params)
    {
      opts := DatakitGet(KeywordsPath, "data", FetchData(params));
    }
  }
}
