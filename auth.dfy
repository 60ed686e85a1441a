/** The token manager and the authenticated request gateway.
  *
  * Time is an integer number of milliseconds passed in by the caller, and
  * every network exchange is an input: what the token endpoint answered
  * (`AuthOutcome`) and what the API answered (`HttpOutcome`). The one
  * asynchronous hand-off of the source, the shared refresh promise, is split
  * into a begin step and a completion step, so that callers interleaved while
  * a refresh is pending become a sequence of transitions on the object. */
module Auth {
  import opened Js
  import opened Config

  /** A token is handed out only while it has more than this left (5 minutes). */
  const ExpiryBufferMs: int := 5 * 60 * 1000

  const AuthPath := "/api/platform/applications/authtickets/oauth"

  /** A request whose URL contains this is never given auth headers. */
  const AuthMarker := "/authtickets/oauth"

  // ---------------------------------------------------------------------
  // Requests and network outcomes

  /** An outbound API request, as the request config of the HTTP client
    * describes it; `retried` is the `_retry` mark set by the 401 handler. */
  datatype ApiRequest = ApiRequest(
    verb: string,
    url: string,
    params: map<string, Json>,
    data: Option<Json>,
    headers: map<string, string>,
    retried: bool)

  /** A request as the tool handlers pass it to `request`. */
  function Call(verb: string, url: string, params: map<string, Json>, data: Option<Json>): ApiRequest
  {
    ApiRequest(verb, url, params, data, map[], false)
  }

  /** The authentication POST: its URL and its JSON body. */
  datatype AuthPost = AuthPost(url: string, body: map<string, Json>)

  /** The client-credentials request `authenticate` posts. The body is JSON,
    * not the form encoding of RFC 6749 section 4.4.2. */
  function AuthRequest(config: KiboConfig): (post: AuthPost)
    ensures post.url == config.apiHost + AuthPath
    ensures post.body.Keys == {"client_id", "client_secret", "grant_type"}
    ensures post.body["client_id"] == Str(config.clientId)
    ensures post.body["client_secret"] == Str(config.clientSecret)
    ensures post.body["grant_type"] == Str("client_credentials")
    ensures Contains(post.url, AuthMarker)
  {
    ContainsInside(config.apiHost + "/api/platform/applications", AuthMarker, "");
    assert config.apiHost + AuthPath == config.apiHost + "/api/platform/applications" + AuthMarker + "";
    AuthPost(config.apiHost + AuthPath,
      map["client_id" := Str(config.clientId),
          "client_secret" := Str(config.clientSecret),
          "grant_type" := Str("client_credentials")])
  }

  /** What the token endpoint did with the authentication POST. */
  datatype AuthOutcome =
    | Granted(accessToken: string, tokenType: Option<string>, expiresIn: int, refreshToken: Option<string>)
    | Refused(cause: Thrown)

  /** What the API did with a request. */
  datatype HttpOutcome = Replied(reply: Reply) | Unreachable(reason: string)

  /** The HTTP client resolves a 2xx reply with its body and rejects
    * everything else with an axios error. */
  function Delivered(o: HttpOutcome): (r: Result<Json, Thrown>)
    ensures r.Ok? <==> o.Replied? && 200 <= o.reply.status < 300
    ensures r.Ok? ==> r.value == o.reply.body
    ensures o.Replied? && r.Err? ==> r.error == HttpError(o.reply)
    ensures o.Unreachable? ==> r.error == NetworkError(o.reason)
  {
    match o
    case Replied(reply) => if 200 <= reply.status < 300 then Ok(reply.body) else Err(HttpError(reply))
    case Unreachable(reason) => Err(NetworkError(reason))
  }

  // ---------------------------------------------------------------------
  // Tokens

  /** `isTokenValid`: a token exists and expires strictly after the buffer. */
  predicate TokenValid(tokens: Option<AuthTokens>, now: int)
  {
    tokens.Some? && tokens.value.expiresAt > now + ExpiryBufferMs
  }

  /** The token record built from a grant received at `now`. */
  function Issued(grant: AuthOutcome, now: int): (t: AuthTokens)
    requires grant.Granted?
    ensures t.accessToken == grant.accessToken
    ensures t.tokenType == if Filled(grant.tokenType) then grant.tokenType.value else "Bearer"
    ensures t.expiresAt - now == grant.expiresIn * 1000
    ensures t.refreshToken == grant.refreshToken
  {
    AuthTokens(grant.accessToken,
               if Filled(grant.tokenType) then grant.tokenType.value else "Bearer",
               now + grant.expiresIn * 1000,
               grant.refreshToken)
  }

  const AuthFailurePrefix := "Kibo authentication failed: "

  /** What `authenticate` resolves or rejects with. */
  function Authenticated(outcome: AuthOutcome, now: int): (r: Result<AuthTokens, Thrown>)
    ensures r.Ok? <==> outcome.Granted?
    ensures r.Ok? ==> r.value == Issued(outcome, now)
    ensures r.Err? ==> r.error.Error? && StartsWith(r.error.message, AuthFailurePrefix)
  {
    match outcome
    case Granted(_, _, _, _) => Ok(Issued(outcome, now))
    case Refused(cause) =>
      var message := AuthFailurePrefix + cause.MessageOr("Unknown error");
      assert message[..|AuthFailurePrefix|] == AuthFailurePrefix;
      Err(Error(message))
  }

  /** The token record once an authentication settles: replaced wholesale on
    * success, left as it was on failure. */
  function Settled(tokens: Option<AuthTokens>, outcome: AuthOutcome, now: int): Option<AuthTokens>
  {
    if outcome.Granted? then Some(Issued(outcome, now)) else tokens
  }

  function TokenString(r: Result<AuthTokens, Thrown>): Result<string, Thrown>
  {
    match r
    case Ok(t) => Ok(t.accessToken)
    case Err(e) => Err(e)
  }

  /** What `getAccessToken` yields when any refresh it awaits settles with `outcome`. */
  function AccessTokenFor(tokens: Option<AuthTokens>, now: int, outcome: AuthOutcome): Result<string, Thrown>
  {
    if TokenValid(tokens, now) then Ok(tokens.value.accessToken)
    else TokenString(Authenticated(outcome, now))
  }

  /** A token just granted is usable at once exactly when its lifetime
    * exceeds the 5-minute buffer: a lifetime of 300 seconds or less makes
    * every later `getAccessToken` authenticate again. */
  lemma FreshTokenValidity(grant: AuthOutcome, now: int)
    requires grant.Granted?
    ensures TokenValid(Some(Issued(grant, now)), now) <==> grant.expiresIn > 300
  {
  }

  /** A token valid at some time is valid at every earlier time. */
  lemma ValidityIsMonotone(tokens: Option<AuthTokens>, earlier: int, later: int)
    requires earlier <= later
    ensures TokenValid(tokens, later) ==> TokenValid(tokens, earlier)
  {
  }

  // ---------------------------------------------------------------------
  // Header injection and the 401 handler

  /** Whether the master catalog header is sent: its id is set and truthy. */
  predicate SendsCatalog(config: KiboConfig)
  {
    config.masterCatalogId.Some? && config.masterCatalogId.value.Truthy()
  }

  /** The headers `addAuthHeaders` leaves on a request that is not the
    * authentication call. */
  function AuthHeaders(headers: map<string, string>, token: string, config: KiboConfig): (h: map<string, string>)
    ensures h.Keys == headers.Keys + {"Authorization", "x-vol-tenant"}
                      + (if config.siteId.Truthy() then {"x-vol-site"} else {})
                      + (if SendsCatalog(config) then {"x-vol-master-catalog"} else {})
    ensures h["Authorization"] == "Bearer " + token
    ensures h["x-vol-tenant"] == config.tenantId.ToString()
    ensures config.siteId.Truthy() ==> h["x-vol-site"] == config.siteId.ToString()
    ensures SendsCatalog(config) ==> h["x-vol-master-catalog"] == config.masterCatalogId.value.ToString()
    ensures forall k :: k in headers && k !in {"Authorization", "x-vol-tenant", "x-vol-site", "x-vol-master-catalog"}
                        ==> h[k] == headers[k]
    ensures !config.siteId.Truthy() && "x-vol-site" in headers ==> h["x-vol-site"] == headers["x-vol-site"]
    ensures !SendsCatalog(config) && "x-vol-master-catalog" in headers ==> h["x-vol-master-catalog"] == headers["x-vol-master-catalog"]
  {
    var withToken := headers["Authorization" := "Bearer " + token]["x-vol-tenant" := config.tenantId.ToString()];
    var withSite := if config.siteId.Truthy() then withToken["x-vol-site" := config.siteId.ToString()] else withToken;
    if SendsCatalog(config) then withSite["x-vol-master-catalog" := config.masterCatalogId.value.ToString()] else withSite
  }

  /** The request the client sends: the authentication call untouched, any
    * other request with the auth headers for the token `getAccessToken`
    * yields, or the failure to get one. */
  function Prepared(req: ApiRequest, config: KiboConfig, tokens: Option<AuthTokens>, now: int, outcome: AuthOutcome): Result<ApiRequest, Thrown>
  {
    if Contains(req.url, AuthMarker) then Ok(req)
    else match AccessTokenFor(tokens, now, outcome)
      case Ok(token) => Ok(req.(headers := AuthHeaders(req.headers, token, config)))
      case Err(e) => Err(e)
  }

  /** What the response-error handler does with a failed request. */
  datatype Recovery = Replay(request: ApiRequest) | Reject(error: Thrown)

  /** The 401 handler: a 401 on a request not yet marked is replayed once,
    * marked; anything else is rejected with the error as it is. */
  function OnResponseError(error: Thrown, request: ApiRequest): (r: Recovery)
    ensures r.Replay? <==> error.HttpError? && error.reply.status == 401 && !request.retried
    ensures r.Replay? ==> r.request == request.(retried := true)
    ensures r.Reject? ==> r.error == error
  {
    if error.HttpError? && error.reply.status == 401 && !request.retried
    then Replay(request.(retried := true))
    else Reject(error)
  }

  /** A replayed request is never replayed again, whatever it fails with. */
  lemma ReplayedOnlyOnce(first: Thrown, request: ApiRequest, second: Thrown)
    requires OnResponseError(first, request).Replay?
    ensures OnResponseError(second, OnResponseError(first, request).request).Reject?
  {
  }

  /** The network outcomes one gateway call may meet, in the order it meets them. */
  datatype Exchange = Exchange(
    auth: AuthOutcome,        // settles a refresh needed before the first send
    first: HttpOutcome,       // the API's answer to the first send
    retryAuth: AuthOutcome,   // settles the refresh a 401 forces
    replayAuth: AuthOutcome,  // settles a refresh needed before the replay
    replay: HttpOutcome)      // the API's answer to the replay

  // ---------------------------------------------------------------------
  // What authentication does to the service's state

  /** The part of the service's state that authentication changes: the
    * token record, the in-flight marker and the number of authentication
    * calls started so far. */
  datatype TokenState = TokenState(tokens: Option<AuthTokens>, inFlight: bool, started: nat)

  /** The state a refresh leaves: the pending authentication, or a new one
    * when none is pending, settles with `outcome`, and the marker is clear. */
  function AfterRefresh(s: TokenState, outcome: AuthOutcome, now: int): TokenState
  {
    TokenState(Settled(s.tokens, outcome, now), false, s.started + (if s.inFlight then 0 else 1))
  }

  /** The state header injection leaves for a request to `url`: untouched
    * for the authentication call or while the token is valid, otherwise the
    * state the refresh it awaits leaves. */
  function AfterHeaders(url: string, s: TokenState, now: int, outcome: AuthOutcome): TokenState
  {
    if Contains(url, AuthMarker) || TokenValid(s.tokens, now) then s else AfterRefresh(s, outcome, now)
  }

  /** The first send's answer forces one refresh and one replay. */
  predicate ForcesReplay(req: ApiRequest, first: HttpOutcome)
  {
    first.Replied? && first.reply.status == 401 && !req.retried
  }

  /** The state one gateway call leaves: header injection for the first
    * send; then, when that send goes out and is answered with a 401, the
    * forced refresh and, when the refresh is granted, header injection for
    * the replay. */
  function AfterRequest(req: ApiRequest, s: TokenState, now: int, net: Exchange): TokenState
  {
    var s1 := AfterHeaders(req.url, s, now, net.auth);
    var firstSent := Contains(req.url, AuthMarker) || TokenValid(s.tokens, now) || net.auth.Granted?;
    if !firstSent || !ForcesReplay(req, net.first) then s1
    else
      var s2 := AfterRefresh(s1, net.retryAuth, now);
      if net.retryAuth.Granted? then AfterHeaders(req.url, s2, now, net.replayAuth) else s2
  }

  /** A call starts at most three authentications (before the send, forced
    * by a 401, before the replay) and leaves no refresh pending that was not
    * pending before. */
  lemma AuthenticationsPerRequest(req: ApiRequest, s: TokenState, now: int, net: Exchange)
    ensures AfterRequest(req, s, now, net).started <= s.started + 3
    ensures !s.inFlight ==> !AfterRequest(req, s, now, net).inFlight
  {
  }

  /** With a valid token and an answer that is not a 401 to be replayed, a
    * call changes nothing and starts no authentication. */
  lemma ValidTokenNoAuthentication(req: ApiRequest, s: TokenState, now: int, net: Exchange)
    requires TokenValid(s.tokens, now) && !ForcesReplay(req, net.first)
    ensures AfterRequest(req, s, now, net) == s
  {
  }

  /** A 401 answered by a granted refresh whose token outlives the 5-minute
    * buffer authenticates exactly once more: the replay uses the new token. */
  lemma GrantedRefreshServesReplay(req: ApiRequest, s: TokenState, now: int, net: Exchange)
    requires !Contains(req.url, AuthMarker) && TokenValid(s.tokens, now) && ForcesReplay(req, net.first)
    requires net.retryAuth.Granted? && net.retryAuth.expiresIn > 300
    ensures AfterRequest(req, s, now, net) == TokenState(Some(Issued(net.retryAuth, now)), false, s.started + (if s.inFlight then 0 else 1))
  {
    FreshTokenValidity(net.retryAuth, now);
  }

  /** `getTokenInfo()`: the stored expiry and validity, or `hasToken: false` alone. */
  datatype TokenInfo = TokenInfo(hasToken: bool, expiresAt: Option<int>, isValid: Option<bool>)

  // ---------------------------------------------------------------------
  // The service

  class KiboAuthService {
    const config: KiboConfig
    var tokens: Option<AuthTokens>
    /** The in-flight refresh marker (`refreshPromise !== null`). */
    var inFlight: bool
    /** Authentication calls started, and those that have settled. */
    ghost var authCalls: nat
    ghost var settled: nat

    /** At most one authentication call is outstanding, and it is the one the
      * marker stands for. */
    ghost predicate Valid()
      reads this
    {
      authCalls == settled + (if inFlight then 1 else 0)
    }

    constructor (config: KiboConfig)
      ensures Valid()
      ensures this.config == config && tokens == None && !inFlight && authCalls == 0
    {
      this.config := config;
      tokens := None;
      inFlight := false;
      authCalls, settled := 0, 0;
    }

    predicate IsTokenValid(now: int)
      reads this
    {
      TokenValid(tokens, now)
    }

    /** `initialize()`: one `authenticate()` run to completion. It does not
      * pass through the marker; the server awaits it before serving calls. */
    method Initialize(outcome: AuthOutcome, now: int) returns (r: Result<AuthTokens, Thrown>)
      requires Valid()
      modifies this`tokens, this`authCalls, this`settled
      ensures Valid()
      ensures r == Authenticated(outcome, now)
      ensures tokens == Settled(old(tokens), outcome, now)
      ensures authCalls == old(authCalls) + 1
    {
      authCalls, settled := authCalls + 1, settled + 1;
      r := Authenticated(outcome, now);
      if r.Ok? {
        tokens := Some(r.value);
      }
    }

    /** `refreshAccessToken()` up to its await: a caller that finds a refresh
      * pending joins it; otherwise it starts `authenticate()` and sets the marker. */
    method BeginRefresh() returns (started: bool)
      requires Valid()
      modifies this`inFlight, this`authCalls
      ensures Valid() && inFlight
      ensures started <==> !old(inFlight)
      ensures authCalls == old(authCalls) + (if started then 1 else 0)
    {
      started := !inFlight;
      if started {
        inFlight := true;
        authCalls := authCalls + 1;
      }
    }

    /** The pending `authenticate()` settles: the token record is replaced on
      * success and kept on failure, the marker is cleared either way, and
      * every caller that joined receives `r`. */
    method CompleteRefresh(outcome: AuthOutcome, now: int) returns (r: Result<AuthTokens, Thrown>)
      requires Valid() && inFlight
      modifies this`tokens, this`inFlight, this`settled
      ensures Valid() && !inFlight
      ensures r == Authenticated(outcome, now)
      ensures tokens == Settled(old(tokens), outcome, now)
    {
      r := Authenticated(outcome, now);
      if r.Ok? {
        tokens := Some(r.value);
      }
      settled := settled + 1;
      inFlight := false;
    }

    /** `refreshAccessToken()` with no other caller stepping in before the
      * pending refresh settles. */
    method RefreshAccessToken(outcome: AuthOutcome, now: int) returns (r: Result<AuthTokens, Thrown>)
      requires Valid()
      modifies this`tokens, this`inFlight, this`authCalls, this`settled
      ensures Valid() && !inFlight
      ensures r == Authenticated(outcome, now)
      ensures tokens == Settled(old(tokens), outcome, now)
      ensures authCalls == old(authCalls) + (if old(inFlight) then 0 else 1)
    {
      var started := BeginRefresh();
      r := CompleteRefresh(outcome, now);
    }

    /** `getAccessToken()` up to its first await: a valid token is returned at
      * once, otherwise the caller joins or starts a refresh. */
    method BeginGetAccessToken(now: int) returns (cached: Option<string>)
      requires Valid()
      modifies this`inFlight, this`authCalls
      ensures Valid()
      ensures old(IsTokenValid(now)) ==> cached == Some(tokens.value.accessToken)
                                         && inFlight == old(inFlight) && authCalls == old(authCalls)
      ensures !old(IsTokenValid(now)) ==> cached == None && inFlight
                                          && authCalls == old(authCalls) + (if old(inFlight) then 0 else 1)
    {
      if tokens.Some? && IsTokenValid(now) {
        cached := Some(tokens.value.accessToken);
      } else {
        var started := BeginRefresh();
        cached := None;
      }
    }

    /** `getAccessToken()` with no other caller stepping in. */
    method GetAccessToken(now: int, outcome: AuthOutcome) returns (r: Result<string, Thrown>)
      requires Valid()
      modifies this`tokens, this`inFlight, this`authCalls, this`settled
      ensures Valid()
      ensures r == AccessTokenFor(old(tokens), now, outcome)
      ensures old(IsTokenValid(now)) ==> tokens == old(tokens) && inFlight == old(inFlight) && authCalls == old(authCalls)
      ensures !old(IsTokenValid(now)) ==> tokens == Settled(old(tokens), outcome, now) && !inFlight
                                          && authCalls == old(authCalls) + (if old(inFlight) then 0 else 1)
    {
      var cached := BeginGetAccessToken(now);
      if cached.Some? {
        r := Ok(cached.value);
      } else {
        var refreshed := CompleteRefresh(outcome, now);
        r := TokenString(refreshed);
      }
    }

    /** The request interceptor `addAuthHeaders`. */
    method AddAuthHeaders(req: ApiRequest, now: int, outcome: AuthOutcome) returns (r: Result<ApiRequest, Thrown>)
      requires Valid()
      modifies this`tokens, this`inFlight, this`authCalls, this`settled
      ensures Valid()
      ensures r == Prepared(req, config, old(tokens), now, outcome)
      ensures Contains(req.url, AuthMarker) || old(IsTokenValid(now)) ==>
                tokens == old(tokens) && inFlight == old(inFlight) && authCalls == old(authCalls)
      ensures !Contains(req.url, AuthMarker) && !old(IsTokenValid(now)) ==>
                tokens == Settled(old(tokens), outcome, now) && !inFlight
                && authCalls == old(authCalls) + (if old(inFlight) then 0 else 1)
    {
      if Contains(req.url, AuthMarker) {
        return Ok(req);
      }
      var token := GetAccessToken(now, outcome);
      match token
      case Ok(t) =>
        r := Ok(req.(headers := AuthHeaders(req.headers, t, config)));
      case Err(e) =>
        r := Err(e);
    }

    /** `request(config)`: header injection, the send, and on a 401 for a
      * request not yet marked one forced refresh and one replay. Returns the
      * result and the requests that went out, in order. */
    method Request(req: ApiRequest, now: int, net: Exchange) returns (r: Result<Json, Thrown>, sent: seq<ApiRequest>)
      requires Valid()
      modifies this`tokens, this`inFlight, this`authCalls, this`settled
      ensures Valid()
      ensures var after := AfterRequest(req, TokenState(old(tokens), old(inFlight), old(authCalls)), now, net);
              tokens == after.tokens && inFlight == after.inFlight && authCalls == after.started
      ensures |sent| <= 2
      ensures var first := Prepared(req, config, old(tokens), now, net.auth);
              && (first.Err? ==> sent == [] && r == Err(first.error))
              && (first.Ok? ==> |sent| >= 1 && sent[0] == first.value)
              && (first.Ok? && !(net.first.Replied? && net.first.reply.status == 401 && !req.retried) ==>
                    sent == [first.value] && r == Delivered(net.first))
      ensures |sent| == 2 ==> !req.retried && net.first.Replied? && net.first.reply.status == 401
                              && sent[1].retried && sent[1].url == req.url && sent[1].params == req.params
                              && sent[1].data == req.data && r == Delivered(net.replay)
      ensures var first := Prepared(req, config, old(tokens), now, net.auth);
              var refreshed := Authenticated(net.retryAuth, now);
              first.Ok? && !req.retried && net.first.Replied? && net.first.reply.status == 401 ==>
                && (refreshed.Err? ==> sent == [first.value] && r == Err(refreshed.error))
                && (refreshed.Ok? ==>
                      var second := Prepared(first.value.(retried := true), config, Some(refreshed.value), now, net.replayAuth);
                      && (second.Err? ==> sent == [first.value] && r == Err(second.error))
                      && (second.Ok? ==> sent == [first.value, second.value] && r == Delivered(net.replay)))
    {
      ghost var calls0 := authCalls;
      ghost var tokens0 := tokens;
      var prepared := AddAuthHeaders(req, now, net.auth);
      if prepared.Err? {
        return Err(prepared.error), [];
      }
      var outbound := prepared.value;
      sent := [outbound];
      r := Delivered(net.first);
      if r.Err? && net.first.Replied? {
        var recovery := OnResponseError(r.error, outbound);
        if recovery.Replay? {
          var refreshed := RefreshAccessToken(net.retryAuth, now);
          if refreshed.Err? {
            r := Err(refreshed.error);
          } else {
            var again := AddAuthHeaders(recovery.request, now, net.replayAuth);
            if again.Err? {
              r := Err(again.error);
            } else {
              sent := sent + [again.value];
              // the replay meets the handler again, already marked: rejected as it is
              r := Delivered(net.replay);
            }
          }
        }
      }
    }

    /** `getTokenInfo()`: reads the token record and changes nothing. */
    method GetTokenInfo(now: int) returns (info: TokenInfo)
      ensures info.hasToken <==> tokens.Some?
      ensures tokens.None? ==> info.expiresAt.None? && info.isValid.None?
      ensures tokens.Some? ==> info.expiresAt == Some(tokens.value.expiresAt) && info.isValid == Some(IsTokenValid(now))
    {
      if tokens.None? {
        return TokenInfo(false, None, None);
      }
      info := TokenInfo(true, Some(tokens.value.expiresAt), Some(IsTokenValid(now)));
    }

    /** Callers that all ask for a token while none is valid and no refresh is
      * pending: the first starts the one authentication call, the others join
      * it, and when it settles every caller receives the same answer. */
    method ConcurrentDemand(callers: nat, now: int, outcome: AuthOutcome) returns (answers: seq<Result<string, Thrown>>)
      requires Valid() && !inFlight && !IsTokenValid(now) && callers >= 1
      modifies this`tokens, this`inFlight, this`authCalls, this`settled
      ensures Valid() && !inFlight
      ensures authCalls == old(authCalls) + 1
      ensures |answers| == callers
      ensures forall i :: 0 <= i < callers ==> answers[i] == AccessTokenFor(old(tokens), now, outcome)
    {
      var waiting := 0;
      while waiting < callers
        invariant 0 <= waiting <= callers
        invariant Valid() && tokens == old(tokens)
        invariant waiting == 0 ==> !inFlight && authCalls == old(authCalls)
        invariant waiting > 0 ==> inFlight && authCalls == old(authCalls) + 1
      {
        var cached := BeginGetAccessToken(now);
        waiting := waiting + 1;
      }
      var shared := CompleteRefresh(outcome, now);
      answers := seq(callers, _ => TokenString(shared));
    }
  }
}
