/** The session a DatakitClient holds and the one place it changes: the completion
    handler of `authorize`, which reads the token endpoint's answer. */
module SessionState {
  import opened JsValues

  /** The closure variables `xAuthToken`, `xInstanceId` and `xApiURL` together
      with the public properties `expires` and `defaults` of the client object. */
  datatype Session = Session(
    token: JsValue,
    instanceId: Option<string>,
    apiUrl: Option<string>,
    expires: JsValue,
    defaults: JsValue)

  /** A fresh client: the three closure variables are null and the two
      properties were never assigned. */
  const Initial := Session(Null, None, None, Undefined, Undefined)

  /** Either nothing is set, or token, instance id, API URL and defaults all are,
      the stored token being a truthy value and the defaults an object. */
  predicate Valid(s: Session) {
    || (s.token == Null && s.instanceId == None && s.apiUrl == None &&
        s.expires == Undefined && s.defaults == Undefined)
    || (Truthy(s.token) && s.instanceId.Some? && s.apiUrl.Some? && s.defaults.Obj?)
  }

  /** `isAuthorized()`: the token is neither null nor undefined. */
  function Authorized(s: Session): (b: bool)
    ensures Valid(s) ==> (b <==> s.apiUrl.Some?) && (b <==> s.instanceId.Some?)
    ensures Valid(s) ==> (b <==> s != Initial)
  {
    !IsNullish(s.token)
  }

  /** `getAuthToken()`: `xAuthToken || null`. */
  function AuthToken(s: Session): (r: JsValue)
    ensures r == Null || r == s.token
    ensures Valid(s) ==> (r != Null <==> Authorized(s))
  {
    if Truthy(s.token) then s.token else Null
  }

  predicate EndsWithSlash(url: string) {
    |url| > 0 && url[|url| - 1] == '/'
  }

  /** `url.replace(/\/$/, "")`: removes one slash at the very end, if there is one. */
  function StripTrailingSlash(url: string): (r: string)
    ensures r <= url
    ensures |r| == |url| - 1 <==> EndsWithSlash(url)
    ensures |r| == |url| <==> !EndsWithSlash(url)
  {
    if EndsWithSlash(url) then url[..|url| - 1] else url
  }

  /** Appending a slash and stripping it gives the URL back. */
  lemma StripUndoesAppendedSlash(url: string)
    ensures StripTrailingSlash(url + "/") == url
  {
  }

  /** A URL that does not end in a slash is stored as given. */
  lemma StripKeepsUnslashedUrl(url: string)
    requires !EndsWithSlash(url)
    ensures StripTrailingSlash(url) == url
  {
  }

  /** Only one slash goes: a doubled slash leaves a single one. */
  lemma StripRemovesOnlyOneSlash()
    ensures StripTrailingSlash("a//") == "a/"
    ensures StripTrailingSlash("https://api.example.com/") == "https://api.example.com"
    ensures StripTrailingSlash("https://api.example.com") == "https://api.example.com"
  {
  }

  /** The values the `authorize` call captured for its completion handler. */
  datatype Pending = Pending(apiUrl: string, instanceId: string)

  /** What the transport hands the completion handler: `(error, res, body)`.
      A transport error is represented by its message. */
  datatype AuthResponse = AuthResponse(error: Option<string>, res: JsValue, body: JsValue)

  /** How one run of the completion handler ends. */
  datatype AuthOutcome =
    | Completed(res: JsValue, body: JsValue)  // callback(null, res, body) was invoked
    | Thrown(message: string)                 // the handler threw this string
    | TypeError                               // `body.access_token` or `body.error` read a property of null or undefined
    | NoCallback                              // the handler returned without a callback

  datatype AuthResult = AuthResult(session: Session, outcome: AuthOutcome)

  const FailurePrefix := "Failed to authenticate: "

  /** The success condition `!error && body.access_token`, given a body it can be evaluated on. */
  predicate Succeeds(r: AuthResponse) {
    !IsNullish(r.body) && r.error.None? && Truthy(Property(r.body, "access_token"))
  }

  /** The completion handler of `authorize` on a session. On success it stores the
      token, the instance id, the API URL without its trailing slash, the
      expiration and the whole body, then invokes the callback. Every other
      outcome leaves the session as it was. */
  function AuthStep(s: Session, p: Pending, r: AuthResponse): (o: AuthResult)
    ensures o.outcome.Completed? <==> Succeeds(r)
    ensures Succeeds(r) ==>
      && o.outcome == Completed(r.res, r.body)
      && o.session.token == Property(r.body, "access_token")
      && o.session.instanceId == Some(p.instanceId)
      && o.session.apiUrl == Some(StripTrailingSlash(p.apiUrl))
      && o.session.expires == Property(r.body, "expiration")
      && o.session.defaults == r.body
      && Authorized(o.session)
      && AuthToken(o.session) == Property(r.body, "access_token")
    ensures !Succeeds(r) ==> o.session == s
    ensures IsNullish(r.body) ==> o.outcome == TypeError
    ensures !IsNullish(r.body) && !Succeeds(r) ==>
      o.outcome == if Truthy(Property(r.body, "error"))
                   then Thrown(FailurePrefix + ToString(Property(r.body, "error")))
                   else NoCallback
    ensures Valid(s) ==> Valid(o.session)
  {
    if IsNullish(r.body) then
      AuthResult(s, TypeError)
    else if r.error.None? && Truthy(Property(r.body, "access_token")) then
      var next := Session(Property(r.body, "access_token"), Some(p.instanceId),
                          Some(StripTrailingSlash(p.apiUrl)), Property(r.body, "expiration"), r.body);
      AuthResult(next, Completed(r.res, r.body))
    else if Truthy(Property(r.body, "error")) then
      AuthResult(s, Thrown(FailurePrefix + ToString(Property(r.body, "error"))))
    else
      AuthResult(s, NoCallback)
  }

  /** One completed `authorize` exchange: what it captured and what came back. */
  datatype AuthEvent = AuthEvent(pending: Pending, response: AuthResponse)

  /** The session after the completion handlers of `events` ran in order. */
  function Run(s: Session, events: seq<AuthEvent>): Session
    decreases |events|
  {
    if events == [] then s
    else
      var last := events[|events| - 1];
      AuthStep(Run(s, events[..|events| - 1]), last.pending, last.response).session
  }

  /** However the token endpoint answers, the session stays valid. */
  lemma {:induction false} RunKeepsValid(s: Session, events: seq<AuthEvent>)
    requires Valid(s)
    ensures Valid(Run(s, events))
    decreases |events|
  {
    if events != [] {
      RunKeepsValid(s, events[..|events| - 1]);
    }
  }

  /** Answers that are not successes leave the session exactly as it was. */
  lemma {:induction false} RunWithoutSuccess(s: Session, events: seq<AuthEvent>)
    requires forall i :: 0 <= i < |events| ==> !Succeeds(events[i].response)
    ensures Run(s, events) == s
    decreases |events|
  {
    if events != [] {
      RunWithoutSuccess(s, events[..|events| - 1]);
    }
  }

  /** A fresh client is authorized after a series of exchanges exactly when one
      of them succeeded. */
  lemma {:induction false} RunAuthorized(events: seq<AuthEvent>)
    ensures Authorized(Run(Initial, events)) <==>
            exists i :: 0 <= i < |events| && Succeeds(events[i].response)
    decreases |events|
  {
    if events != [] {
      var prefix := events[..|events| - 1];
      RunAuthorized(prefix);
      if Succeeds(events[|events| - 1].response) {
        assert Succeeds(events[|events| - 1].response);
      } else {
        forall i | 0 <= i < |prefix| && Succeeds(prefix[i].response)
          ensures 0 <= i < |events| && Succeeds(events[i].response)
        {
          assert prefix[i] == events[i];
        }
        forall i | 0 <= i < |events| && Succeeds(events[i].response)
          ensures 0 <= i < |prefix| && Succeeds(prefix[i].response)
        {
          assert prefix[i] == events[i];
        }
      }
    }
  }

  /** Failures after a run of exchanges do not disturb what that run stored. */
  lemma {:induction false} RunIgnoresLaterFailures(s: Session, done: seq<AuthEvent>, later: seq<AuthEvent>)
    requires forall j :: 0 <= j < |later| ==> !Succeeds(later[j].response)
    ensures Run(s, done + later) == Run(s, done)
    decreases |later|
  {
    if later == [] {
      assert done + later == done;
    } else {
      var front := later[..|later| - 1];
      var all := done + later;
      assert all[..|all| - 1] == done + front;
      RunIgnoresLaterFailures(s, done, front);
    }
  }

  /** The session holds what the last successful exchange stored. */
  lemma RunKeepsLastSuccess(s: Session, done: seq<AuthEvent>, e: AuthEvent, later: seq<AuthEvent>)
    requires Succeeds(e.response)
    requires forall j :: 0 <= j < |later| ==> !Succeeds(later[j].response)
    ensures Run(s, done + [e] + later).token == Property(e.response.body, "access_token")
    ensures Run(s, done + [e] + later).instanceId == Some(e.pending.instanceId)
    ensures Run(s, done + [e] + later).apiUrl == Some(StripTrailingSlash(e.pending.apiUrl))
    ensures Run(s, done + [e] + later).expires == Property(e.response.body, "expiration")
    ensures Run(s, done + [e] + later).defaults == e.response.body
  {
    RunIgnoresLaterFailures(s, done + [e], later);
    assert (done + [e])[..|done + [e]| - 1] == done;
  }
}
