/**
 * The generic OAuth endpoint (`setup_oauth`/`oauth_endpoint`) and the login
 * enforcement handler (`enforce_login`).
 *
 * The endpoint keeps a map of pending OAuth states (state -> creation time and
 * post-login redirect), filled on `?login` and consumed on `?code&state`. The
 * random state token, `urllib.parse.quote`, `urllib.parse.urljoin` and the
 * outcome of the code exchange with the identity provider are inputs.
 */
module Generics {
  import opened Values
  import opened Base
  import Session

  const DefaultUri := "/auth"
  const DefaultWorkflowTimeout := 900

  /** `OAUTH_URL_INIT % (state, encodedCallback)` */
  function InitUrl(state: string, encodedCallback: string): string {
    "https://oauth.apache.org/auth-oidc?state=" + state + "&redirect_uri=" + encodedCallback
  }

  const ExpiredStatePrefix := "Invalid or expired OAuth state provided. OAuth workflows must be completed within "
  const Goodbye := "Client session removed, goodbye!\n"
  const NoActiveSession := "No active session found.\n"

  function ExpiredStateMessage(workflowTimeout: int): string {
    ExpiredStatePrefix
      + IntToString(workflowTimeout) + " seconds.\n"
  }

  /** The parts of a request the endpoint and the error handler look at. */
  datatype Request = Request(
    args: map<string, string>,   // request.args (first value per key)
    queryString: string,         // request.query_string
    hostUrl: string,             // request.host_url
    fullPath: string,            // request.full_path
    hasAuthorization: bool)      // request.authorization is not None

  /** Which branch of `oauth_endpoint` a request takes. */
  datatype Action =
    | Login(loginUri: Option<string>)
    | Logout(logoutUri: Option<string>)
    | Callback(code: string, state: string)
    | Show

  /** The branch selection of `oauth_endpoint`, in the order the code tests it. */
  function Dispatch(req: Request): Action {
    var login := Get(req.args, "login");
    var logout := Get(req.args, "logout");
    if TruthyStr(login) || req.queryString == "login" then Login(login)
    else if TruthyStr(logout) || req.queryString == "logout" then Logout(logout)
    else
      var code := Get(req.args, "code");
      var state := Get(req.args, "state");
      if TruthyStr(code) && TruthyStr(state) then Callback(code.value, state.value) else Show
  }

  // ---------------------------------------------------------------------------
  // The pending-state map

  /** `pending_states[state]`: when the login started and where to go afterwards. */
  datatype Pending = Pending(created: int, loginUri: Option<string>)

  /** `pending_states[state] = [now, login_uri]` */
  function Initiated(pending: map<string, Pending>, state: string, now: int, loginUri: Option<string>): map<string, Pending> {
    pending[state := Pending(now, loginUri)]
  }

  /** A state created strictly before `now - workflowTimeout` is stale. */
  predicate Stale(p: Pending, now: int, workflowTimeout: int) {
    p.created < now - workflowTimeout
  }

  /** The outcome of looking a callback's state up. */
  datatype Claim = Rejected | Accepted(loginUri: Option<string>)
  datatype ConsumeStep = ConsumeStep(claim: Claim, pending: map<string, Pending>)

  /** The state check of the callback branch: reject and pop, or read and pop. */
  function Consume(pending: map<string, Pending>, state: string, now: int, workflowTimeout: int): ConsumeStep {
    if state !in pending || Stale(pending[state], now, workflowTimeout) then
      ConsumeStep(Rejected, pending - {state})
    else
      ConsumeStep(Accepted(pending[state].loginUri), pending - {state})
  }

  // ---------------------------------------------------------------------------
  // HTTPS enforcement of the callback host

  const Http := "http://"
  const Https := "https://"

  /** `s.replace("http://", "https://")`: every occurrence, scanning left to right. */
  function EnforceHttps(s: string): string
    decreases |s|
  {
    if |s| < |Http| then s
    else if s[..|Http|] == Http then Https + EnforceHttps(s[|Http|..])
    else [s[0]] + EnforceHttps(s[1..])
  }

  /** When the first character of the rewritten string is not `h`, it was copied unchanged. */
  lemma HeadKept(t: string)
    requires |EnforceHttps(t)| > 0 && EnforceHttps(t)[0] != 'h'
    ensures |t| > 0 && t[0] == EnforceHttps(t)[0]
    ensures EnforceHttps(t)[1..] == EnforceHttps(t[1..])
  {
  }

  /** A rewritten string that starts with an `h`-free text came from a string that starts with it. */
  lemma {:induction false} HFreePrefixKept(t: string, p: string)
    requires forall i :: 0 <= i < |p| ==> p[i] != 'h'
    ensures |p| <= |EnforceHttps(t)| && EnforceHttps(t)[..|p|] == p ==> |p| <= |t| && t[..|p|] == p
    decreases |p|
  {
    if p != [] && |p| <= |EnforceHttps(t)| && EnforceHttps(t)[..|p|] == p {
      HeadKept(t);
      HFreePrefixKept(t[1..], p[1..]);
    }
  }

  /** Putting `https://` in front of a text without `http://` creates none. */
  lemma NoHttpAfterHttps(rest: string)
    requires !Contains(rest, Http)
    ensures !Contains(Https + rest, Http)
  {
    var r := Https + rest;
    forall i: nat | i <= |r| ensures !ContainsAt(r, Http, i) {
      if i >= |Https| {
        if i + |Http| <= |r| {
          assert r[i..i + |Http|] == rest[i - |Https|..i - |Https| + |Http|];
          assert !ContainsAt(rest, Http, i - |Https|);
        }
      } else if i + |Http| <= |r| {
        assert r[..|Https|] == Https;
        if i == 0 {
          assert r[i..i + |Http|][4] == 's' != Http[4];
        } else {
          assert r[i..i + |Http|][0] == Https[i] != Http[0];
        }
      }
    }
  }

  /** A character copied in front of the rewritten rest creates no `http://` when `s` did not start with one. */
  lemma NoHttpAfterCopiedChar(s: string)
    requires |s| >= |Http| && s[..|Http|] != Http
    requires !Contains(EnforceHttps(s[1..]), Http)
    ensures !Contains([s[0]] + EnforceHttps(s[1..]), Http)
  {
    var rest := EnforceHttps(s[1..]);
    var r := [s[0]] + rest;
    forall i: nat | i <= |r| ensures !ContainsAt(r, Http, i) {
      if i >= 1 {
        if i + |Http| <= |r| {
          assert r[i..i + |Http|] == rest[i - 1..i - 1 + |Http|];
          assert !ContainsAt(rest, Http, i - 1);
        }
      } else {
        NoHttpAtCopiedChar(s);
      }
    }
  }

  /** The copied character does not start an `http://` when `s` did not start with one. */
  lemma NoHttpAtCopiedChar(s: string)
    requires |s| >= |Http| && s[..|Http|] != Http
    ensures !ContainsAt([s[0]] + EnforceHttps(s[1..]), Http, 0)
  {
    var rest := EnforceHttps(s[1..]);
    var r := [s[0]] + rest;
    assert s[..|Http|] == [s[0]] + s[1..][..6];
    if s[0] != 'h' {
      assert r[0] != Http[0];
    } else {
      assert s[1..][..6] != "ttp://";
      HFreePrefixKept(s[1..], "ttp://");
      if |r| >= |Http| {
        assert rest[..6] != "ttp://";
        assert r[1..7] == rest[..6];
        assert r[..|Http|][1..] == r[1..7];
      }
    }
  }

  /** After the rewrite no `http://` is left anywhere in the callback host. */
  lemma {:induction false} EnforceHttpsLeavesNoHttp(s: string)
    ensures !Contains(EnforceHttps(s), Http)
    decreases |s|
  {
    if |s| < |Http| {
    } else if s[..|Http|] == Http {
      EnforceHttpsLeavesNoHttp(s[|Http|..]);
      NoHttpAfterHttps(EnforceHttps(s[|Http|..]));
    } else {
      EnforceHttpsLeavesNoHttp(s[1..]);
      NoHttpAfterCopiedChar(s);
    }
  }

  /** A host without `http://` is left as it is. */
  lemma {:induction false} EnforceHttpsKeepsHttpsHost(s: string)
    requires !Contains(s, Http)
    ensures EnforceHttps(s) == s
    decreases |s|
  {
    if |s| >= |Http| {
      assert !ContainsAt(s, Http, 0);
      forall i: nat | i <= |s[1..]| ensures !ContainsAt(s[1..], Http, i) {
        if ContainsAt(s[1..], Http, i) {
          assert s[i + 1..i + 1 + |Http|] == s[1..][i..i + |Http|];
          assert ContainsAt(s, Http, i + 1);
        }
      }
      EnforceHttpsKeepsHttpsHost(s[1..]);
    }
  }

  /** `http://host/` becomes `https://host/`. */
  lemma EnforceHttpsOnPlainHost(host: string)
    requires !Contains(host, Http)
    ensures EnforceHttps(Http + host) == Https + host
  {
    assert (Http + host)[..|Http|] == Http;
    assert (Http + host)[|Http|..] == host;
    EnforceHttpsKeepsHttpsHost(host);
  }

  // ---------------------------------------------------------------------------
  // The endpoint

  /** What the code exchange with the identity provider gave: its JSON object, or a failure. */
  datatype Exchange = Exchanged(data: Record) | ExchangeFailed

  /** The endpoint's response with the pending-state map and session dict it leaves behind. */
  datatype EndpointStep = EndpointStep(response: Response, pending: map<string, Pending>, cookies: map<string, Value>)

  /** The `?login` branch: record the state and send the browser to the provider. */
  function LoginStep(uri: string, pending: map<string, Pending>, cookies: map<string, Value>,
                     req: Request, now: int, token: string, loginUri: Option<string>,
                     quote: string -> string, urljoin: (string, string) -> string): EndpointStep
  {
    var callbackUrl := urljoin(EnforceHttps(req.hostUrl), uri + "?state=" + token);
    EndpointStep(Redirect(InitUrl(token, quote(callbackUrl))), Initiated(pending, token, now, loginUri), cookies)
  }

  /** The `?logout` branch: clear the session, then redirect or say goodbye. */
  function LogoutStep(appId: string, pending: map<string, Pending>, cookies: map<string, Value>,
                      logoutUri: Option<string>): EndpointStep
  {
    var response := if TruthyStr(logoutUri) then Redirect(logoutUri.value) else Text(200, Goodbye);
    EndpointStep(response, pending, Session.Cleared(cookies, appId))
  }

  /** The callback branch: consume the state, then (if accepted) store the provider's data as the session. */
  function CallbackStep(workflowTimeout: int, appId: string, pending: map<string, Pending>, cookies: map<string, Value>,
                        state: string, now: int, exchange: Exchange): EndpointStep
  {
    var step := Consume(pending, state, now, workflowTimeout);
    if step.claim.Rejected? then EndpointStep(Text(403, ExpiredStateMessage(workflowTimeout)), step.pending, cookies)
    else if exchange.ExchangeFailed? then EndpointStep(ServerError, step.pending, cookies)
    else
      var data := exchange.data;
      var loginUri := step.claim.loginUri;
      var response :=
        if TruthyStr(loginUri) then Redirect(loginUri.value)
        else if "uid" in data then Welcome(data["uid"])
        else ServerError;
      EndpointStep(response, step.pending, Session.Written(cookies, appId, data, now))
  }

  /** The bare branch: show the session `read` gives, or 404. */
  function ShowStep(appId: string, pending: map<string, Pending>, cookies: map<string, Value>, now: int): EndpointStep
  {
    var read := Session.ReadOutcome(cookies, appId, now, Session.DefaultExpiry);
    var response :=
      match read.result
      case Active(record) => SessionView(record)
      case NoSession => Text(404, NoActiveSession)
      case UtsTypeError => ServerError;
    EndpointStep(response, pending, read.cookies)
  }

  /** The specification of one request to `oauth_endpoint`. */
  function Endpoint(
    uri: string, workflowTimeout: int, appId: string,
    pending: map<string, Pending>, cookies: map<string, Value>,
    req: Request, now: int, token: string,
    quote: string -> string, urljoin: (string, string) -> string, exchange: Exchange): EndpointStep
  {
    match Dispatch(req)
    case Login(loginUri) => LoginStep(uri, pending, cookies, req, now, token, loginUri, quote, urljoin)
    case Logout(logoutUri) => LogoutStep(appId, pending, cookies, logoutUri)
    case Callback(_, state) => CallbackStep(workflowTimeout, appId, pending, cookies, state, now, exchange)
    case Show => ShowStep(appId, pending, cookies, now)
  }

  /** The endpoint registered by `setup_oauth(uri, workflow_timeout)`, with its closure's `pending_states`. */
  class OAuthEndpoint {
    const uri: string
    const workflowTimeout: int
    var pendingStates: map<string, Pending>
    const store: Session.SessionStore

    constructor (uri: string, workflowTimeout: int, store: Session.SessionStore)
      ensures this.uri == uri && this.workflowTimeout == workflowTimeout && this.store == store
      ensures pendingStates == map[]
    {
      this.uri := uri;
      this.workflowTimeout := workflowTimeout;
      this.store := store;
      pendingStates := map[];
    }

    /** One request to `oauth_endpoint` at time `now`; `token` is what `secrets.token_hex(16)` returns. */
    method Handle(req: Request, now: int, token: string,
                  quote: string -> string, urljoin: (string, string) -> string, exchange: Exchange)
      returns (response: Response)
      modifies this, store
      ensures EndpointStep(response, pendingStates, store.cookies) ==
              Endpoint(uri, workflowTimeout, store.appId, old(pendingStates), old(store.cookies),
                       req, now, token, quote, urljoin, exchange)
    {
      var loginUri := Get(req.args, "login");
      var logoutUri := Get(req.args, "logout");
      if TruthyStr(loginUri) || req.queryString == "login" {
        assert Dispatch(req) == Login(loginUri);
        response := StartLogin(req, now, token, loginUri, quote, urljoin);
      } else if TruthyStr(logoutUri) || req.queryString == "logout" {
        assert Dispatch(req) == Logout(logoutUri);
        response := LogOut(logoutUri);
      } else {
        var code := Get(req.args, "code");
        var state := Get(req.args, "state");
        if TruthyStr(code) && TruthyStr(state) {
          assert Dispatch(req) == Callback(code.value, state.value);
          response := CompleteLogin(state.value, now, exchange);
        } else {
          assert Dispatch(req) == Show;
          response := ShowSession(now);
        }
      }
    }

    /** The `?login` branch. */
    method StartLogin(req: Request, now: int, token: string, loginUri: Option<string>,
                      quote: string -> string, urljoin: (string, string) -> string)
      returns (response: Response)
      modifies this
      ensures EndpointStep(response, pendingStates, store.cookies) ==
              LoginStep(uri, old(pendingStates), store.cookies, req, now, token, loginUri, quote, urljoin)
    {
      var state := token;
      // Save the time the state was created and the optional post-login redirect.
      pendingStates := pendingStates[state := Pending(now, loginUri)];
      var callbackHost := EnforceHttps(req.hostUrl);
      var callbackUrl := urljoin(callbackHost, uri + "?state=" + state);
      response := Redirect(InitUrl(state, quote(callbackUrl)));
    }

    /** The `?logout` branch. */
    method LogOut(logoutUri: Option<string>) returns (response: Response)
      modifies store
      ensures EndpointStep(response, pendingStates, store.cookies) ==
              LogoutStep(store.appId, pendingStates, old(store.cookies), logoutUri)
    {
      store.Clear();
      if TruthyStr(logoutUri) {
        response := Redirect(logoutUri.value);
      } else {
        response := Text(200, Goodbye);
      }
    }

    /** The callback branch, for non-empty `code` and `state`. */
    method CompleteLogin(state: string, now: int, exchange: Exchange) returns (response: Response)
      modifies this, store
      ensures EndpointStep(response, pendingStates, store.cookies) ==
              CallbackStep(workflowTimeout, store.appId, old(pendingStates), old(store.cookies), state, now, exchange)
    {
      if state !in pendingStates || pendingStates[state].created < now - workflowTimeout {
        pendingStates := pendingStates - {state};
        response := Text(403, ExpiredStateMessage(workflowTimeout));
        return;
      }
      var redirectUri := pendingStates[state].loginUri;
      // The state is popped before the code exchange, so that it can be used only once.
      pendingStates := pendingStates - {state};
      if exchange.ExchangeFailed? {
        response := ServerError;
        return;
      }
      var oauthData := exchange.data;
      store.Write(oauthData, now);
      if TruthyStr(redirectUri) {
        response := Redirect(redirectUri.value);
      } else if "uid" in oauthData {
        response := Welcome(oauthData["uid"]);
      } else {
        response := ServerError;
      }
    }

    /** The bare branch. */
    method ShowSession(now: int) returns (response: Response)
      modifies store
      ensures EndpointStep(response, pendingStates, store.cookies) ==
              ShowStep(store.appId, pendingStates, old(store.cookies), now)
    {
      var clientSession := store.Read(now, Session.DefaultExpiry);
      match clientSession
      case Active(record) => response := SessionView(record);
      case NoSession => response := Text(404, NoActiveSession);
      case UtsTypeError => response := ServerError;
    }
  }

  // ---------------------------------------------------------------------------
  // Properties of the endpoint

  /** Each request is answered by the branch `Dispatch` selects. */
  lemma EndpointBranch(
    uri: string, workflowTimeout: int, appId: string,
    pending: map<string, Pending>, cookies: map<string, Value>,
    req: Request, now: int, token: string,
    quote: string -> string, urljoin: (string, string) -> string, exchange: Exchange)
    ensures var step := Endpoint(uri, workflowTimeout, appId, pending, cookies, req, now, token, quote, urljoin, exchange);
            match Dispatch(req)
            case Login(loginUri) => step == LoginStep(uri, pending, cookies, req, now, token, loginUri, quote, urljoin)
            case Logout(logoutUri) => step == LogoutStep(appId, pending, cookies, logoutUri)
            case Callback(_, state) => step == CallbackStep(workflowTimeout, appId, pending, cookies, state, now, exchange)
            case Show => step == ShowStep(appId, pending, cookies, now)
  {
  }

  /** A callback request is answered by the callback branch. */
  lemma EndpointCallback(
    uri: string, workflowTimeout: int, appId: string,
    pending: map<string, Pending>, cookies: map<string, Value>,
    req: Request, now: int, token: string,
    quote: string -> string, urljoin: (string, string) -> string, exchange: Exchange)
    requires Dispatch(req).Callback?
    ensures Endpoint(uri, workflowTimeout, appId, pending, cookies, req, now, token, quote, urljoin, exchange)
            == CallbackStep(workflowTimeout, appId, pending, cookies, Dispatch(req).state, now, exchange)
  {
  }

  /** The callback branch always pops the state, and answers 403 when the state was unknown. */
  lemma CallbackStepPops(workflowTimeout: int, appId: string, pending: map<string, Pending>, cookies: map<string, Value>,
                         state: string, now: int, exchange: Exchange)
    ensures CallbackStep(workflowTimeout, appId, pending, cookies, state, now, exchange).pending == pending - {state}
    ensures state !in pending ==>
              CallbackStep(workflowTimeout, appId, pending, cookies, state, now, exchange).response
              == Text(403, ExpiredStateMessage(workflowTimeout))
  {
  }

  /** The branch order: login, then logout, then a callback with both `code` and `state`, then the session view. */
  lemma DispatchPriority(req: Request)
    ensures Dispatch(req).Login? <==> TruthyStr(Get(req.args, "login")) || req.queryString == "login"
    ensures Dispatch(req).Logout? <==>
              !(TruthyStr(Get(req.args, "login")) || req.queryString == "login")
              && (TruthyStr(Get(req.args, "logout")) || req.queryString == "logout")
    ensures Dispatch(req).Callback? <==>
              !(TruthyStr(Get(req.args, "login")) || req.queryString == "login")
              && !(TruthyStr(Get(req.args, "logout")) || req.queryString == "logout")
              && TruthyStr(Get(req.args, "code")) && TruthyStr(Get(req.args, "state"))
    ensures Dispatch(req).Callback? ==>
              Dispatch(req).code == req.args["code"] && Dispatch(req).state == req.args["state"]
  {
  }

  /**
   * `?login`: the new state maps to `(now, login value)`, every other pending state
   * is kept, the session is untouched, and the browser is sent to the provider with a
   * callback on the HTTPS-enforced host.
   */
  lemma LoginInitiates(
    uri: string, workflowTimeout: int, appId: string,
    pending: map<string, Pending>, cookies: map<string, Value>,
    req: Request, now: int, token: string,
    quote: string -> string, urljoin: (string, string) -> string, exchange: Exchange)
    requires Dispatch(req).Login?
    ensures var step := Endpoint(uri, workflowTimeout, appId, pending, cookies, req, now, token, quote, urljoin, exchange);
            && step.pending.Keys == pending.Keys + {token}
            && step.pending[token] == Pending(now, Get(req.args, "login"))
            && (forall s :: s in pending && s != token ==> step.pending[s] == pending[s])
            && step.cookies == cookies
            && step.response == Redirect(InitUrl(token, quote(urljoin(EnforceHttps(req.hostUrl), uri + "?state=" + token))))
            && !Contains(EnforceHttps(req.hostUrl), Http)
  {
    EndpointBranch(uri, workflowTimeout, appId, pending, cookies, req, now, token, quote, urljoin, exchange);
    EnforceHttpsLeavesNoHttp(req.hostUrl);
  }

  /** A callback's state is gone afterwards, whatever the outcome. */
  lemma ConsumeRemoves(pending: map<string, Pending>, state: string, now: int, workflowTimeout: int)
    ensures var step := Consume(pending, state, now, workflowTimeout);
            && step.pending == pending - {state}
            && (step.claim == Rejected <==> state !in pending || pending[state].created < now - workflowTimeout)
            && (step.claim.Accepted? ==> step.claim.loginUri == pending[state].loginUri)
  {
  }

  /** The second consumption of one state is always rejected (single use). */
  lemma ConsumeSingleUse(pending: map<string, Pending>, state: string, now: int, now2: int, workflowTimeout: int)
    ensures var first := Consume(pending, state, now, workflowTimeout);
            Consume(first.pending, state, now2, workflowTimeout).claim == Rejected
  {
  }

  /** A state initiated at `t` and presented at `t2` within the timeout is accepted with its login value. */
  lemma InitiateThenConsume(pending: map<string, Pending>, state: string, t: int, t2: int, workflowTimeout: int, loginUri: Option<string>)
    requires t >= t2 - workflowTimeout
    ensures var step := Consume(Initiated(pending, state, t, loginUri), state, t2, workflowTimeout);
            step.claim == Accepted(loginUri) && step.pending == pending - {state}
  {
  }

  /** A callback whose state is unknown or stale gets 403, purges the state and leaves the session alone. */
  lemma CallbackRejected(
    uri: string, workflowTimeout: int, appId: string,
    pending: map<string, Pending>, cookies: map<string, Value>,
    req: Request, now: int, token: string,
    quote: string -> string, urljoin: (string, string) -> string, exchange: Exchange)
    requires Dispatch(req).Callback?
    requires var s := Dispatch(req).state; s !in pending || pending[s].created < now - workflowTimeout
    ensures var step := Endpoint(uri, workflowTimeout, appId, pending, cookies, req, now, token, quote, urljoin, exchange);
            && step.response == Text(403, ExpiredStateMessage(workflowTimeout))
            && step.pending == pending - {Dispatch(req).state}
            && step.cookies == cookies
  {
    EndpointBranch(uri, workflowTimeout, appId, pending, cookies, req, now, token, quote, urljoin, exchange);
  }

  /**
   * Replaying a callback is rejected: after any first callback request, the same
   * request gets 403 at any later time, whatever the code exchange would give.
   */
  lemma CallbackSingleUse(
    uri: string, workflowTimeout: int, appId: string,
    pending: map<string, Pending>, cookies: map<string, Value>,
    req: Request, now: int, now2: int, token: string, token2: string,
    quote: string -> string, urljoin: (string, string) -> string, exchange: Exchange, exchange2: Exchange)
    requires Dispatch(req).Callback?
    ensures var first := Endpoint(uri, workflowTimeout, appId, pending, cookies, req, now, token, quote, urljoin, exchange);
            var second := Endpoint(uri, workflowTimeout, appId, first.pending, first.cookies, req, now2, token2, quote, urljoin, exchange2);
            second.response.Status() == 403 && Dispatch(req).state !in second.pending
  {
    var st := Dispatch(req).state;
    EndpointCallback(uri, workflowTimeout, appId, pending, cookies, req, now, token, quote, urljoin, exchange);
    CallbackStepPops(workflowTimeout, appId, pending, cookies, st, now, exchange);
    var first := CallbackStep(workflowTimeout, appId, pending, cookies, st, now, exchange);
    EndpointCallback(uri, workflowTimeout, appId, first.pending, first.cookies, req, now2, token2, quote, urljoin, exchange2);
    CallbackStepPops(workflowTimeout, appId, first.pending, first.cookies, st, now2, exchange2);
  }

  /**
   * A successful callback writes the identity provider's data as the session and
   * redirects to the login value stored when the login started, unchanged; without
   * one it welcomes the data's `uid`, or fails (after the session is written) when the
   * data has no `uid`.
   */
  lemma CallbackAccepted(
    uri: string, workflowTimeout: int, appId: string,
    pending: map<string, Pending>, cookies: map<string, Value>,
    req: Request, now: int, token: string,
    quote: string -> string, urljoin: (string, string) -> string, data: Record)
    requires Dispatch(req).Callback?
    requires var s := Dispatch(req).state; s in pending && pending[s].created >= now - workflowTimeout
    ensures var s := Dispatch(req).state;
            var stored := pending[s].loginUri;
            var step := Endpoint(uri, workflowTimeout, appId, pending, cookies, req, now, token, quote, urljoin, Exchanged(data));
            && step.pending == pending - {s}
            && step.cookies == Session.Written(cookies, appId, data, now)
            && (TruthyStr(stored) ==> step.response == Redirect(stored.value))
            && (!TruthyStr(stored) && "uid" in data ==> step.response == Welcome(data["uid"]))
            && (!TruthyStr(stored) && "uid" !in data ==> step.response == ServerError)
  {
    EndpointBranch(uri, workflowTimeout, appId, pending, cookies, req, now, token, quote, urljoin, Exchanged(data));
  }

  /** A failed code exchange still consumes the state, and writes no session. */
  lemma CallbackExchangeFailed(
    uri: string, workflowTimeout: int, appId: string,
    pending: map<string, Pending>, cookies: map<string, Value>,
    req: Request, now: int, token: string,
    quote: string -> string, urljoin: (string, string) -> string)
    requires Dispatch(req).Callback?
    ensures var step := Endpoint(uri, workflowTimeout, appId, pending, cookies, req, now, token, quote, urljoin, ExchangeFailed);
            && (step.response == ServerError || step.response == Text(403, ExpiredStateMessage(workflowTimeout)))
            && step.pending == pending - {Dispatch(req).state}
            && step.cookies == cookies
  {
    EndpointBranch(uri, workflowTimeout, appId, pending, cookies, req, now, token, quote, urljoin, ExchangeFailed);
    var st := Dispatch(req).state;
    var step := CallbackStep(workflowTimeout, appId, pending, cookies, st, now, ExchangeFailed);
    assert step.pending == pending - {st};
  }

  /**
   * End to end: `?login=<v>` at `t`, then the provider's callback with that state at
   * `t2` within the timeout, gives a session holding the provider's data and a
   * redirect to `v` (for a non-empty `v`).
   */
  lemma LoginThenCallback(
    uri: string, workflowTimeout: int, appId: string,
    pending: map<string, Pending>, cookies: map<string, Value>,
    login: Request, callback: Request, t: int, t2: int, token: string, token2: string,
    quote: string -> string, urljoin: (string, string) -> string, exchange: Exchange, data: Record)
    requires Dispatch(login).Login? && TruthyStr(Dispatch(login).loginUri)
    requires Dispatch(callback).Callback? && Dispatch(callback).state == token
    requires t2 - t <= workflowTimeout
    ensures var first := Endpoint(uri, workflowTimeout, appId, pending, cookies, login, t, token, quote, urljoin, exchange);
            var second := Endpoint(uri, workflowTimeout, appId, first.pending, first.cookies, callback, t2, token2, quote, urljoin, Exchanged(data));
            && second.response == Redirect(login.args["login"])
            && second.cookies == Session.Written(cookies, appId, data, t2)
            && token !in second.pending
  {
    EndpointBranch(uri, workflowTimeout, appId, pending, cookies, login, t, token, quote, urljoin, exchange);
    var first := Endpoint(uri, workflowTimeout, appId, pending, cookies, login, t, token, quote, urljoin, exchange);
    EndpointBranch(uri, workflowTimeout, appId, first.pending, first.cookies, callback, t2, token2, quote, urljoin, Exchanged(data));
    assert first.pending == Initiated(pending, token, t, Get(login.args, "login"));
    InitiateThenConsume(pending, token, t, t2, workflowTimeout, Get(login.args, "login"));
  }

  /** Logout clears this application's session, then redirects to the logout value or says goodbye. */
  lemma LogoutClears(
    uri: string, workflowTimeout: int, appId: string,
    pending: map<string, Pending>, cookies: map<string, Value>,
    req: Request, now: int, token: string,
    quote: string -> string, urljoin: (string, string) -> string, exchange: Exchange)
    requires Dispatch(req).Logout?
    ensures var step := Endpoint(uri, workflowTimeout, appId, pending, cookies, req, now, token, quote, urljoin, exchange);
            var logout := Get(req.args, "logout");
            && appId !in step.cookies
            && step.cookies == Session.Cleared(cookies, appId)
            && step.pending == pending
            && (TruthyStr(logout) ==> step.response == Redirect(logout.value))
            && (!TruthyStr(logout) ==> step.response == Text(200, Goodbye))
  {
    EndpointBranch(uri, workflowTimeout, appId, pending, cookies, req, now, token, quote, urljoin, exchange);
  }

  /** A bare request without a stored session answers 404. */
  lemma BareRequestWithoutSession(
    uri: string, workflowTimeout: int, appId: string,
    pending: map<string, Pending>, cookies: map<string, Value>,
    req: Request, now: int, token: string,
    quote: string -> string, urljoin: (string, string) -> string, exchange: Exchange)
    requires req.args == map[] && req.queryString == ""
    requires appId !in cookies
    ensures Endpoint(uri, workflowTimeout, appId, pending, cookies, req, now, token, quote, urljoin, exchange)
            == EndpointStep(Text(404, NoActiveSession), pending, cookies)
  {
    EndpointBranch(uri, workflowTimeout, appId, pending, cookies, req, now, token, quote, urljoin, exchange);
  }

  /** A bare request with a live session shows the refreshed record. */
  lemma BareRequestWithSession(
    uri: string, workflowTimeout: int, appId: string,
    pending: map<string, Pending>, cookies: map<string, Value>,
    req: Request, now: int, token: string,
    quote: string -> string, urljoin: (string, string) -> string, exchange: Exchange)
    requires Dispatch(req).Show?
    requires Session.ReadOutcome(cookies, appId, now, Session.DefaultExpiry).result.Active?
    ensures var step := Endpoint(uri, workflowTimeout, appId, pending, cookies, req, now, token, quote, urljoin, exchange);
            && step.response == SessionView(Session.ReadOutcome(cookies, appId, now, Session.DefaultExpiry).result.record)
            && step.pending == pending
  {
    EndpointBranch(uri, workflowTimeout, appId, pending, cookies, req, now, token, quote, urljoin, exchange);
  }

  /**
   * The bare branch as written: `read` runs (and may refresh or delete the record),
   * then `await` on the dict or `None` it returned raises TypeError, so every bare
   * request ends in a server error.
   */
  function ShowStepAsWritten(appId: string, pending: map<string, Pending>, cookies: map<string, Value>, now: int): EndpointStep
  {
    var read := Session.ReadOutcome(cookies, appId, now, Session.DefaultExpiry);
    EndpointStep(ServerError, pending, read.cookies)
  }

  /**
   * As written, a bare request never shows a session nor answers 404; the branch
   * `ShowStep` models (read used as a plain call) shows a live session and answers
   * 404 without one, with the same effect on the session dict.
   */
  lemma ShowAsWrittenAlwaysFails(appId: string, pending: map<string, Pending>, cookies: map<string, Value>, now: int)
    ensures ShowStepAsWritten(appId, pending, cookies, now).response.Status() == 500
    ensures ShowStepAsWritten(appId, pending, cookies, now).cookies == ShowStep(appId, pending, cookies, now).cookies
    ensures Session.ReadOutcome(cookies, appId, now, Session.DefaultExpiry).result.Active? <==>
              ShowStep(appId, pending, cookies, now).response.SessionView?
    ensures appId !in cookies ==> ShowStep(appId, pending, cookies, now).response == Text(404, NoActiveSession)
  {
  }

  // ---------------------------------------------------------------------------
  // enforce_login

  /**
   * The `AuthenticationFailed` handler of `enforce_login(redirect_uri)`: `session` is
   * what `session.read()` gives for the request.
   */
  function EnforceLogin(redirectUri: string, req: Request, session: Option<Record>, error: Exception): Response
    requires error.AuthenticationFailed?
  {
    if !req.hasAuthorization && !TruthyRecord(session) then Redirect(redirectUri + "?login=" + req.fullPath)
    else Text(error.errorcode, error.message)
  }

  /**
   * The handler redirects to the login flow exactly when the request has neither an
   * Authorization header nor a session, and otherwise answers with the error's code
   * and message, as the application-wide handler would.
   */
  lemma EnforceLoginDecision(redirectUri: string, req: Request, session: Option<Record>, error: Exception)
    requires error.AuthenticationFailed?
    ensures EnforceLogin(redirectUri, req, session, error).Redirect? <==>
              !req.hasAuthorization && (session.None? || session.value == map[])
    ensures EnforceLogin(redirectUri, req, session, error).Redirect? ==>
              EnforceLogin(redirectUri, req, session, error).location == redirectUri + "?login=" + req.fullPath
    ensures !EnforceLogin(redirectUri, req, session, error).Redirect? ==>
              EnforceLogin(redirectUri, req, session, error) == HandleException(error)
  {
  }

  /**
   * The handler as written: with an Authorization header `not request.authorization`
   * is false and the `await` is never reached; without one, `await` on what `read`
   * returned raises TypeError, so the handler itself fails.
   */
  function EnforceLoginAsWritten(redirectUri: string, req: Request, session: Option<Record>, error: Exception): Response
    requires error.AuthenticationFailed?
  {
    if !req.hasAuthorization then ServerError
    else Text(error.errorcode, error.message)
  }

  /**
   * As written the handler never redirects to the login flow: a request without a
   * session and without an Authorization header, which `EnforceLogin` sends to the
   * login page, gets a server error instead.
   */
  lemma EnforceLoginAsWrittenNeverRedirects(redirectUri: string, req: Request, session: Option<Record>, error: Exception)
    requires error.AuthenticationFailed?
    ensures !EnforceLoginAsWritten(redirectUri, req, session, error).Redirect?
    ensures !req.hasAuthorization && session.None? ==>
              && EnforceLoginAsWritten(redirectUri, req, session, error) == ServerError
              && EnforceLogin(redirectUri, req, session, error) == Redirect(redirectUri + "?login=" + req.fullPath)
    ensures req.hasAuthorization ==>
              EnforceLoginAsWritten(redirectUri, req, session, error) == EnforceLogin(redirectUri, req, session, error)
  {
  }

  /** With `setup_oauth()`'s default timeout, a rejected callback is told 900 seconds. */
  lemma DefaultTimeoutMessage()
    ensures ExpiredStateMessage(DefaultWorkflowTimeout) == ExpiredStatePrefix + "900 seconds.\n"
  {
    assert NatToString(900) == NatToString(90) + ['0'];
    assert NatToString(90) == NatToString(9) + ['0'];
  }

  /** With `enforce_login()`'s default, an anonymous request is sent to `/auth?login=<full path>`. */
  lemma DefaultEnforceLoginRedirect(req: Request, error: Exception)
    requires error.AuthenticationFailed? && !req.hasAuthorization
    ensures EnforceLogin(DefaultUri, req, None, error) == Redirect("/auth?login=" + req.fullPath)
  {
  }
}
