/** The request builder: `getRequestOptions` and the method tagging done by
    `datakitGet` and `datakitPost`. The descriptor produced here is what the
    client passes to the HTTP transport. */
module RequestBuilder {
  import opened JsValues
  import opened SessionState

  datatype Method = GET | POST

  /** `{ Authorization: ..., 'Instance-ID': ... }` */
  datatype Headers = Headers(authorization: string, instanceId: Option<string>)

  /** The form of the token request: `{ grant_type: ..., apikey: data.api_key }`. */
  datatype Form = Form(grantType: string, apikey: Option<string>)

  /** The `data` argument of `getRequestOptions`, with the fields the callers put in it:
      `api_key` and `instance_id` for `authorize`, `params` for the collection fetches. */
  datatype RequestData = RequestData(apiKey: Option<string>, instanceId: Option<string>, params: JsValue)

  /** The `json` option: the flag `true` in the token request, the `data` object in a data request. */
  datatype JsonOption = JsonFlag(flag: bool) | JsonBody(body: RequestData)

  /** The options object handed to the transport. Absent fields are `None`. */
  datatype Options = Options(
    url: string,
    verb: Option<Method>,
    headers: Option<Headers>,
    form: Option<Form>,
    timeout: int,
    strictSSL: Option<bool>,
    json: JsonOption)

  const GrantType := "urn:ibm:params:oauth:grant-type:apikey"
  const TimeoutMs := 120000

  /** The token-request shape, used while no API URL is stored. */
  predicate IsAuthShape(o: Options, path: string, data: RequestData) {
    && o.url == path
    && o.headers == None
    && o.form == Some(Form(GrantType, data.apiKey))
    && o.timeout == TimeoutMs
    && o.strictSSL == Some(true)
    && o.json == JsonFlag(true)
  }

  /** The data-request shape, used once an API URL is stored. */
  predicate IsDataShape(o: Options, s: Session, stringify: JsValue -> string, path: string, data: RequestData)
    requires s.apiUrl.Some?
  {
    && o.url == s.apiUrl.value + "/" + path + "?" + stringify(data.params)
    && o.headers == Some(Headers("Bearer " + ToString(s.token), s.instanceId))
    && o.form == None
    && o.timeout == TimeoutMs
    && o.strictSSL == None
    && o.json == JsonBody(data)
  }

  /** `getRequestOptions(path, type, data)`. `stringify` is the query-string
      serialiser of the host platform. The `type` argument plays no part. */
  function RequestOptions(s: Session, stringify: JsValue -> string, path: string, kind: string, data: RequestData): (o: Options)
    ensures o.verb == None
    ensures s.apiUrl.None? ==> IsAuthShape(o, path, data)
    ensures s.apiUrl.Some? ==> IsDataShape(o, s, stringify, path, data)
  {
    match s.apiUrl
    case None =>
      Options(path, None, None, Some(Form(GrantType, data.apiKey)), TimeoutMs, Some(true), JsonFlag(true))
    case Some(base) =>
      var headers := Headers("Bearer " + ToString(s.token), s.instanceId);
      Options(base + "/" + path + "?" + stringify(data.params), None, Some(headers), None, TimeoutMs, None, JsonBody(data))
  }

  /** What `datakitGet` or `datakitPost` hands the transport. */
  function Tagged(o: Options, m: Method): (t: Options)
    ensures t.verb == Some(m)
    ensures t.(verb := o.verb) == o
  {
    o.(verb := Some(m))
  }

  const CategoriesPath := "v1/categories"
  const CountriesPath := "v1/countries"
  const AttractionsPath := "v1/attractions"
  const ConceptsPath := "v1/concepts"
  const EntitiesPath := "v1/entities"
  const KeywordsPath := "v1/keywords"

  /** The `data` object of a collection fetch: `{}` for categories and countries
      (whose `params` is then undefined), `{ params: params }` for the others. */
  function FetchData(params: JsValue): RequestData {
    RequestData(None, None, params)
  }

  /** The descriptor a collection fetch hands the transport. */
  function FetchOptions(s: Session, stringify: JsValue -> string, path: string, params: JsValue): Options {
    Tagged(RequestOptions(s, stringify, path, "data", FetchData(params)), GET)
  }

  /** The descriptor `authorize` hands the transport. */
  function AuthOptions(s: Session, stringify: JsValue -> string, authUrl: string, apiKey: string, instanceId: string): Options {
    Tagged(RequestOptions(s, stringify, authUrl, "auth", RequestData(Some(apiKey), Some(instanceId), Undefined)), POST)
  }

  /** The shape is chosen by whether an API URL is stored, and by nothing else
      about the session; the `type` argument is ignored. */
  lemma ShapeChosenByApiUrl(s1: Session, s2: Session, stringify: JsValue -> string,
                            path: string, kind1: string, kind2: string, data: RequestData)
    requires s1.apiUrl.None? && s2.apiUrl.None?
    ensures RequestOptions(s1, stringify, path, kind1, data) == RequestOptions(s2, stringify, path, kind2, data)
  {
  }

  /** On any session, with or without a stored API URL, the `type` argument
      has no effect on the options. */
  lemma KindIgnored(s: Session, stringify: JsValue -> string, path: string,
                    kind1: string, kind2: string, data: RequestData)
    ensures RequestOptions(s, stringify, path, kind1, data) == RequestOptions(s, stringify, path, kind2, data)
  {
  }

  /** The token request carries the API key but never the instance id. */
  lemma AuthFormOmitsInstanceId(s: Session, stringify: JsValue -> string, authUrl: string,
                                apiKey: string, id1: string, id2: string)
    requires s.apiUrl.None?
    ensures AuthOptions(s, stringify, authUrl, apiKey, id1) == AuthOptions(s, stringify, authUrl, apiKey, id2)
    ensures AuthOptions(s, stringify, authUrl, apiKey, id1).form == Some(Form(GrantType, Some(apiKey)))
    ensures AuthOptions(s, stringify, authUrl, apiKey, id1).verb == Some(POST)
  {
  }

  /** Calling `authorize` again on an authorized client sends the token request
      as a data request: the token URL is appended to the stored API URL, the
      query is the serialisation of an undefined `params`, the bearer headers
      are sent, there is no form, and the API key and instance id travel in
      the `json` option. */
  lemma ReauthorizeBuildsDataRequest(s: Session, stringify: JsValue -> string, authUrl: string,
                                     apiKey: string, instanceId: string)
    requires Valid(s) && Authorized(s)
    ensures var o := AuthOptions(s, stringify, authUrl, apiKey, instanceId);
      && o.url == s.apiUrl.value + "/" + authUrl + "?" + stringify(Undefined)
      && o.headers.Some? && o.form == None && o.verb == Some(POST)
      && o.json == JsonBody(RequestData(Some(apiKey), Some(instanceId), Undefined))
  {
  }

  /** A fetch before authorization goes out as a token-request-shaped GET to the
      bare relative path, without headers and with no API key in its form. */
  lemma FetchBeforeAuthorize(stringify: JsValue -> string, path: string, params: JsValue)
    ensures var o := FetchOptions(Initial, stringify, path, params);
      && o.url == path && o.headers == None
      && o.form == Some(Form(GrantType, None)) && o.verb == Some(GET)
  {
  }
}
