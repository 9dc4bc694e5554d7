/** The API client: the two-slot token store, the request and response interceptors, the
    refresh of an expired access token, login normalisation and error classification, and
    the query-string URLs of the organization-scoped endpoints. */
module Api {
  import opened Wrappers
  import opened Text
  import opened Entities

  // ---------------------------------------------------------------- bearer credentials

  const AuthorizationHeader: string := "Authorization"
  const BearerPrefix: string := "Bearer "

  /** The status that makes the client try a refresh (section 15.5.2 of RFC 9110). */
  const Unauthorized: int := 401

  /** The credentials value of section 2.1 of RFC 6750: the scheme, one space, the token. */
  function BearerValue(token: string): (v: string)
    ensures StartsWith(v, BearerPrefix) && v[|BearerPrefix|..] == token
  {
    BearerPrefix + token
  }

  /** Reads the token back out of an Authorization value. */
  function ParseBearer(v: string): (t: Option<string>)
    ensures t.Some? <==> StartsWith(v, BearerPrefix)
  {
    if StartsWith(v, BearerPrefix) then Some(v[|BearerPrefix|..]) else None
  }

  lemma BearerRoundTrip(token: string)
    ensures ParseBearer(BearerValue(token)) == Some(token)
  {
  }

  /** The request interceptor: the header is added exactly when a truthy access token is
      stored, and no other header is touched. */
  function AttachToken(stored: Option<string>, headers: map<string, string>): (h: map<string, string>)
    ensures Truthy(stored) ==> AuthorizationHeader in h && ParseBearer(h[AuthorizationHeader]) == Some(stored.value)
    ensures !Truthy(stored) ==> h == headers
    ensures h.Keys <= headers.Keys + {AuthorizationHeader}
    ensures forall k :: k in headers && k != AuthorizationHeader ==> k in h && h[k] == headers[k]
  {
    if Truthy(stored) then
      BearerRoundTrip(stored.value);
      headers[AuthorizationHeader := BearerValue(stored.value)]
    else headers
  }

  /** The per-request configuration the interceptors share: its headers and the `_retry`
      flag the response interceptor sets. */
  class RequestConfig {
    var headers: map<string, string>
    var retry: bool

    constructor(headers: map<string, string>)
      ensures this.headers == headers && !retry
    {
      this.headers := headers;
      retry := false;
    }
  }

  // ---------------------------------------------------------------- requests and replies

  /** An error response: its status and the `message` and `error` of its body. */
  datatype ErrorResponse = ErrorResponse(status: int, message: Option<string>, error: Option<string>)

  /** A failed request as the catch blocks inspect it: its `code`, its `message`, the
      server response when one arrived, and whether a request was sent. */
  datatype RequestError = RequestError(code: Option<string>, message: Option<string>, response: Option<ErrorResponse>, requestSent: bool)

  /** What one request produced: a body, or a thrown error. */
  datatype Attempt<T> = Answered(body: T) | Threw(error: RequestError)

  /** A plain `Error` raised by the client's own code: a message and nothing else. */
  function PlainError(message: string): RequestError {
    RequestError(None, Some(message), None, false)
  }

  /** What the refresh endpoint answers (either token may be missing from its body), or
      the error its call threw. */
  datatype RefreshReply = Granted(accessToken: Option<string>, refreshToken: Option<string>) | Refused(error: RequestError)

  /** How the response interceptor settles a failed request. */
  datatype Interception =
    | Resent                               // the request was sent again with the new token
    | RejectedOriginal                     // the original error is passed on
    | RejectedRefresh(error: RequestError) // the refresh failed; its error is passed on

  const NoRefreshToken: string := "No refresh token"
  const LoginPath: string := "/login"

  /** The login endpoint's body; the backend may name the tokens either way. */
  datatype LoginReply = LoginReply(
    accessToken: Option<string>, token: Option<string>,
    refreshToken: Option<string>, refresh: Option<string>,
    user: Option<User>)

  type LoginAttempt = Attempt<LoginReply>

  /** The register endpoint's body, read without any check. */
  datatype RegisterReply = RegisterReply(accessToken: Option<string>, refreshToken: Option<string>, user: Option<User>)

  /** The tokens and user a successful login hands back. */
  datatype Session = Session(accessToken: string, refreshToken: string, user: User)

  // ---------------------------------------------------------------- the refresh protocol

  /** An error response with status 401. */
  predicate Rejects401(e: RequestError) {
    e.response.Some? && e.response.value.status == Unauthorized
  }

  predicate IsUnauthorized<T>(a: Attempt<T>) {
    a.Threw? && Rejects401(a.error)
  }

  /** What `refreshAccessToken` settles with: "No refresh token" when none is stored, the
      endpoint's error when it refuses, otherwise the new access token as `String` renders
      it (a missing one becomes "undefined"). */
  function RefreshResult(stored: Option<string>, reply: RefreshReply): (r: Result<string, RequestError>)
    ensures !Truthy(stored) ==> r == Failure(PlainError(NoRefreshToken))
    ensures r.Success? <==> Truthy(stored) && reply.Granted?
    ensures r.Success? ==> r.value == JsString(reply.accessToken)
    ensures Truthy(stored) && reply.Refused? ==> r == Failure(reply.error)
  {
    if !Truthy(stored) then Failure(PlainError(NoRefreshToken))
    else match reply
      case Granted(a, _) => Success(JsString(a))
      case Refused(e) => Failure(e)
  }

  /** A request as the response interceptor settles it. Anything but a 401 is final. A 401
      triggers one refresh: after a successful one the resent request's outcome is final
      (the resent request is flagged, so a second 401 passes through); after a failed one
      the refresh error is. */
  function Settle<T>(first: Attempt<T>, refreshed: Result<string, RequestError>, resent: Attempt<T>): (a: Attempt<T>)
    ensures !IsUnauthorized(first) ==> a == first
    ensures IsUnauthorized(first) && refreshed.Success? ==> a == resent
    ensures IsUnauthorized(first) && refreshed.Failure? ==> a == Threw(refreshed.error)
  {
    if !IsUnauthorized(first) then first
    else match refreshed
      case Success(_) => resent
      case Failure(e) => Threw(e)
  }

  /** The stored tokens once the interceptor is done: unchanged without a 401, the new pair
      after a successful refresh, none after a failed one. */
  function TokensAfter(unauthorized: bool, access: Option<string>, refresh: Option<string>, reply: RefreshReply): (t: (Option<string>, Option<string>))
    ensures !unauthorized ==> t == (access, refresh)
    ensures unauthorized && RefreshResult(refresh, reply).Failure? ==> t == (None, None)
    ensures unauthorized && RefreshResult(refresh, reply).Success? ==>
      t.0 == Some(RefreshResult(refresh, reply).value) && t.1 == Some(JsString(reply.refreshToken))
  {
    if !unauthorized then (access, refresh)
    else if RefreshResult(refresh, reply).Success? then (Some(JsString(reply.accessToken)), Some(JsString(reply.refreshToken)))
    else (None, None)
  }

  /** The browser's location once the interceptor is done: the login page exactly after a
      failed refresh. */
  function LocationAfter(unauthorized: bool, refresh: Option<string>, reply: RefreshReply, location: Option<string>): (l: Option<string>)
    ensures l == Some(LoginPath) || l == location
    ensures l != location ==> unauthorized && RefreshResult(refresh, reply).Failure?
    ensures unauthorized && RefreshResult(refresh, reply).Failure? ==> l == Some(LoginPath)
  {
    if unauthorized && RefreshResult(refresh, reply).Failure? then Some(LoginPath) else location
  }

  // ---------------------------------------------------------------- login

  const MissingTokens: string := "Invalid response from server: missing tokens"
  const MissingUser: string := "Invalid response from server: missing user data"
  const LoginFailed: string := "Login failed"
  const ColdStart: string :=
    "Request timed out. The server may be starting up (cold start). "
    + "Please try again in a few moments. This usually takes 30-60 seconds on the first request."
  const Unreachable: string :=
    "Unable to reach the server. Please check your internet connection and try again. "
    + "If this is the first request, the server may be starting up (cold start)."

  /** Picks the tokens under either name and checks that tokens and user are present. */
  function NormalizeLogin(reply: LoginReply): (r: Result<Session, string>)
    ensures r.Success? <==>
      Truthy(OrElse(reply.accessToken, reply.token)) && Truthy(OrElse(reply.refreshToken, reply.refresh)) && reply.user.Some?
    ensures r.Success? ==>
      Some(r.value.accessToken) == OrElse(reply.accessToken, reply.token)
      && Some(r.value.refreshToken) == OrElse(reply.refreshToken, reply.refresh)
      && r.value.user == reply.user.value
    ensures r.Failure? ==>
      r.error == (if Truthy(OrElse(reply.accessToken, reply.token)) && Truthy(OrElse(reply.refreshToken, reply.refresh))
                  then MissingUser else MissingTokens)
  {
    var access := OrElse(reply.accessToken, reply.token);
    var refresh := OrElse(reply.refreshToken, reply.refresh);
    if !Truthy(access) || !Truthy(refresh) then Failure(MissingTokens)
    else if reply.user.None? then Failure(MissingUser)
    else Success(Session(access.value, refresh.value, reply.user.value))
  }

  /** An aborted connection, or a message that mentions a timeout. */
  function IsTimeout(e: RequestError): (b: bool)
    ensures b <==>
      e.code == Some("ECONNABORTED") || (e.message.Some? && exists i :: OccursAt(e.message.value, "timeout", i))
  {
    if e.message.Some? then
      ContainsIff(e.message.value, "timeout");
      e.code == Some("ECONNABORTED") || Contains(e.message.value, "timeout")
    else
      e.code == Some("ECONNABORTED")
  }

  /** The message the login call rethrows: a timeout first, then the server's own words,
      then an unanswered request, then the error's message. */
  function ClassifyRequestError(e: RequestError): (m: string)
    ensures m != ""
    ensures IsTimeout(e) ==> m == ColdStart
    ensures !IsTimeout(e) && e.response.Some? ==>
      m == Or(OrElse(e.response.value.message, e.response.value.error), LoginFailed)
    ensures !IsTimeout(e) && e.response.None? && e.requestSent ==> m == Unreachable
    ensures !IsTimeout(e) && e.response.None? && !e.requestSent ==> m == Or(e.message, LoginFailed)
  {
    if IsTimeout(e) then ColdStart
    else if e.response.Some? then Or(OrElse(e.response.value.message, e.response.value.error), LoginFailed)
    else if e.requestSent then Unreachable
    else Or(e.message, LoginFailed)
  }

  /** A rejected login body reaches the caller with its own message unless that message
      mentions a timeout. */
  lemma NormalizationErrorPassesThrough(message: string)
    requires message != "" && !Contains(message, "timeout")
    ensures ClassifyRequestError(PlainError(message)) == message
  {
  }

  /** A timeout is reported as a cold start even when the server also answered. */
  lemma TimeoutBeatsResponse(e: RequestError)
    requires e.code == Some("ECONNABORTED") && e.response.Some?
    ensures ClassifyRequestError(e) == ColdStart
  {
  }

  /** A server message is shown verbatim unless the error is a timeout. */
  lemma ServerMessageShown(e: RequestError)
    requires !IsTimeout(e) && e.response.Some? && Truthy(e.response.value.message)
    ensures ClassifyRequestError(e) == e.response.value.message.value
  {
  }

  /** The outcome of a login call as its caller sees it. */
  function LoginOutcome(attempt: LoginAttempt): (r: Result<Session, string>)
    ensures r.Failure? ==> r.error != ""
    ensures r.Success? <==> attempt.Answered? && NormalizeLogin(attempt.body).Success?
    ensures attempt.Answered? && NormalizeLogin(attempt.body).Success? ==> r == NormalizeLogin(attempt.body)
    ensures attempt.Answered? && NormalizeLogin(attempt.body).Failure? ==>
      r == Failure(ClassifyRequestError(PlainError(NormalizeLogin(attempt.body).error)))
    ensures attempt.Threw? ==> r == Failure(ClassifyRequestError(attempt.error))
  {
    match attempt
    case Threw(e) => Failure(ClassifyRequestError(e))
    case Answered(reply) =>
      match NormalizeLogin(reply)
      case Success(s) => Success(s)
      case Failure(m) => Failure(ClassifyRequestError(PlainError(m)))
  }

  /** A login call as a whole: the request settled by the interceptor, then the catch
      block's classification. */
  function LoginCall(first: LoginAttempt, storedRefresh: Option<string>, reply: RefreshReply, resent: LoginAttempt): (r: Result<Session, string>)
    ensures r == LoginOutcome(Settle(first, RefreshResult(storedRefresh, reply), resent))
    ensures !IsUnauthorized(first) ==> r == LoginOutcome(first)
  {
    LoginOutcome(Settle(first, RefreshResult(storedRefresh, reply), resent))
  }

  // ---------------------------------------------------------------- URLs

  const OrgQueryKey: string := "?organizationId="

  /** `organizationId ? \`${path}?organizationId=${organizationId}\` : path`. */
  function OrgQuery(path: string, organizationId: Option<string>): (url: string)
    ensures !Truthy(organizationId) ==> url == path
    ensures Truthy(organizationId) ==> StartsWith(url, path) && url[|path|..] == OrgQueryKey + organizationId.value
  {
    if Truthy(organizationId) then path + OrgQueryKey + organizationId.value else path
  }

  /** Splits a URL back into its path and the organization it is scoped to. */
  function ParseOrgQuery(url: string): (r: (string, Option<string>))
  {
    match IndexOf(url, '?')
    case None => (url, None)
    case Some(i) =>
      if StartsWith(url[i..], OrgQueryKey) then (url[..i], Some(url[i + |OrgQueryKey|..]))
      else (url[..i], None)
  }

  /** Every URL builder can be read back: the path and the organization (when one was
      given) come out as they went in. */
  lemma {:induction false} OrgQueryRoundTrip(path: string, organizationId: Option<string>)
    requires '?' !in path
    ensures ParseOrgQuery(OrgQuery(path, organizationId)) == (path, if Truthy(organizationId) then organizationId else None)
  {
    var url := OrgQuery(path, organizationId);
    assert forall j :: 0 <= j < |path| ==> path[j] != '?';
    if Truthy(organizationId) {
      assert url[|path|] == '?';
      assert IndexOf(url, '?') == Some(|path|);
      assert url[..|path|] == path;
      assert url[|path|..][..|OrgQueryKey|] == OrgQueryKey;
      assert url[|path| + |OrgQueryKey|..] == organizationId.value;
    } else {
      assert IndexOf(url, '?') == None;
    }
  }

  /** `getUserStats`: the URL reads back as "/admin/stats/users" scoped to the organization, when one is given. */
  function UserStatsUrl(organizationId: Option<string>): (url: string)
    ensures ParseOrgQuery(url) == ("/admin/stats/users", if Truthy(organizationId) then organizationId else None)
    ensures !Truthy(organizationId) ==> url == "/admin/stats/users"
  {
    OrgQueryRoundTrip("/admin/stats/users", organizationId);
    OrgQuery("/admin/stats/users", organizationId)
  }

  /** `getCourseStats`: the URL reads back as "/admin/stats/courses" scoped to the organization, when one is given. */
  function CourseStatsUrl(organizationId: Option<string>): (url: string)
    ensures ParseOrgQuery(url) == ("/admin/stats/courses", if Truthy(organizationId) then organizationId else None)
    ensures !Truthy(organizationId) ==> url == "/admin/stats/courses"
  {
    OrgQueryRoundTrip("/admin/stats/courses", organizationId);
    OrgQuery("/admin/stats/courses", organizationId)
  }

  /** `getEnrollments`: the URL reads back as "/admin/enrollments" scoped to the organization, when one is given. */
  function EnrollmentsUrl(organizationId: Option<string>): (url: string)
    ensures ParseOrgQuery(url) == ("/admin/enrollments", if Truthy(organizationId) then organizationId else None)
    ensures !Truthy(organizationId) ==> url == "/admin/enrollments"
  {
    OrgQueryRoundTrip("/admin/enrollments", organizationId);
    OrgQuery("/admin/enrollments", organizationId)
  }

  /** `getCourses`: the URL reads back as "/courses" scoped to the organization, when one is given. */
  function CoursesUrl(organizationId: Option<string>): (url: string)
    ensures ParseOrgQuery(url) == ("/courses", if Truthy(organizationId) then organizationId else None)
    ensures !Truthy(organizationId) ==> url == "/courses"
  {
    OrgQueryRoundTrip("/courses", organizationId);
    OrgQuery("/courses", organizationId)
  }

  /** `getAllUsers` spells out the "all" case before the general one; either way the URL
      reads back as "/admin/users" scoped to the organization, when one is given. */
  function AllUsersUrl(organizationId: Option<string>): (url: string)
    ensures ParseOrgQuery(url) == ("/admin/users", if Truthy(organizationId) then organizationId else None)
    ensures !Truthy(organizationId) ==> url == "/admin/users"
  {
    OrgQueryRoundTrip("/admin/users", organizationId);
    if organizationId == Some("all") then
      AllOrganizationsQuery();
      "/admin/users?organizationId=all"
    else OrgQuery("/admin/users", organizationId)
  }

  /** The literal of the "all" branch is the general rule applied to "all". */
  lemma AllOrganizationsQuery()
    ensures "/admin/users?organizationId=all" == OrgQuery("/admin/users", Some("all"))
  {
    assert OrgQuery("/admin/users", Some("all")) == "/admin/users" + OrgQueryKey + "all";
  }

  /** The "all" branch of `getAllUsers` builds the same URL as the general rule. */
  lemma AllUsersUrlIsOrgQuery(organizationId: Option<string>)
    ensures AllUsersUrl(organizationId) == OrgQuery("/admin/users", organizationId)
  {
  }

  // ---------------------------------------------------------------- the client

  /** The client's state: the two stored tokens, the in-flight refresh marker and the
      page the browser was sent to. */
  class Client {
    var accessToken: Option<string>
    var refreshToken: Option<string>
    var refreshInFlight: bool
    var location: Option<string>

    /** Between calls no refresh is in flight. */
    ghost predicate Valid()
      reads this
    {
      !refreshInFlight
    }

    /** A client over whatever tokens the browser already holds. */
    constructor(storedAccess: Option<string>, storedRefresh: Option<string>)
      ensures Valid()
      ensures accessToken == storedAccess && refreshToken == storedRefresh && location.None?
    {
      accessToken := storedAccess;
      refreshToken := storedRefresh;
      refreshInFlight := false;
      location := None;
    }

    method SetTokens(access: string, refresh: string)
      modifies this
      ensures accessToken == Some(access) && refreshToken == Some(refresh)
      ensures refreshInFlight == old(refreshInFlight) && location == old(location)
    {
      accessToken := Some(access);
      refreshToken := Some(refresh);
    }

    method ClearTokens()
      modifies this
      ensures accessToken.None? && refreshToken.None?
      ensures refreshInFlight == old(refreshInFlight) && location == old(location)
    {
      accessToken := None;
      refreshToken := None;
    }

    /** The request interceptor applied to an outgoing request. */
    method AuthorizeRequest(config: RequestConfig)
      modifies config
      ensures config.headers == AttachToken(accessToken, old(config.headers))
      ensures config.retry == old(config.retry)
    {
      config.headers := AttachToken(accessToken, config.headers);
    }

    /** Exchanges the stored refresh token for a new pair. Fails with "No refresh token"
        when none is stored; on success both slots are replaced together, each as `String`
        renders the body's value, and the new access token is returned; the in-flight
        marker is clear again in every case. */
    method RefreshAccessToken(reply: RefreshReply) returns (r: Result<string, RequestError>, sent: Option<string>)
      requires Valid()
      modifies this
      ensures Valid() && location == old(location)
      ensures sent == (if Truthy(old(refreshToken)) then old(refreshToken) else None)
      ensures r == RefreshResult(old(refreshToken), reply)
      ensures r.Success? ==> accessToken == Some(r.value) && refreshToken == Some(JsString(reply.refreshToken))
      ensures r.Failure? ==> accessToken == old(accessToken) && refreshToken == old(refreshToken)
    {
      refreshInFlight := true;
      if !Truthy(refreshToken) {
        r, sent := Failure(PlainError(NoRefreshToken)), None;
      } else {
        sent := refreshToken;
        match reply
        case Granted(a, f) =>
          SetTokens(JsString(a), JsString(f));
          r := Success(JsString(a));
        case Refused(e) =>
          r := Failure(e);
      }
      refreshInFlight := false;
    }

    /** The response interceptor for a failed request. Only a 401 on a request not yet
        retried triggers a refresh, and the request is flagged before refreshing, so a
        request is refreshed at most once. A successful refresh resends the request with
        the new access token; a failed one clears both tokens, sends the browser to the
        login page and passes on the refresh error. */
    method OnResponseError(status: Option<int>, config: RequestConfig, reply: RefreshReply) returns (o: Interception)
      requires Valid()
      modifies this, config
      ensures Valid()
      ensures !(status == Some(Unauthorized) && !old(config.retry)) ==>
        o == RejectedOriginal && unchanged(this) && unchanged(config)
      ensures status == Some(Unauthorized) && !old(config.retry) ==>
        config.retry && o != RejectedOriginal
        && (o == Resent <==> RefreshResult(old(refreshToken), reply).Success?)
        && (accessToken, refreshToken) == TokensAfter(true, old(accessToken), old(refreshToken), reply)
        && location == LocationAfter(true, old(refreshToken), reply, old(location))
      ensures o == Resent ==>
        config.headers == old(config.headers)[AuthorizationHeader := BearerValue(RefreshResult(old(refreshToken), reply).value)]
      ensures o.RejectedRefresh? ==> Failure(o.error) == RefreshResult(old(refreshToken), reply)
    {
      if status == Some(Unauthorized) && !config.retry {
        config.retry := true;
        var r, _ := RefreshAccessToken(reply);
        match r
        case Success(token) =>
          config.headers := config.headers[AuthorizationHeader := BearerValue(token)];
          o := Resent;
        case Failure(e) =>
          ClearTokens();
          location := Some(LoginPath);
          o := RejectedRefresh(e);
      } else {
        o := RejectedOriginal;
      }
    }

    /** A request sent through the client, with both interceptors in place: `first` is what
        the server did with it, `reply` what the refresh endpoint would answer and `resent`
        what the server does with the resent request. */
    method Send<T>(first: Attempt<T>, reply: RefreshReply, resent: Attempt<T>) returns (a: Attempt<T>)
      requires Valid()
      modifies this
      ensures Valid()
      ensures a == Settle(first, RefreshResult(old(refreshToken), reply), resent)
      ensures (accessToken, refreshToken) == TokensAfter(IsUnauthorized(first), old(accessToken), old(refreshToken), reply)
      ensures location == LocationAfter(IsUnauthorized(first), old(refreshToken), reply, old(location))
    {
      if IsUnauthorized(first) {
        var config := new RequestConfig(map[]);
        var o := OnResponseError(Some(Unauthorized), config, reply);
        if o == Resent {
          a := resent;
        } else {
          a := Threw(o.error);
        }
      } else {
        a := first;
      }
    }

    /** `login`: the request goes through the interceptors, so a 401 refreshes before the
        catch block sees it. The tokens are stored only when the settled body carries both
        tokens and a user; a failure leaves the tokens as the interceptor left them. */
    method Login(first: LoginAttempt, reply: RefreshReply, resent: LoginAttempt) returns (r: Result<Session, string>)
      requires Valid()
      modifies this
      ensures Valid()
      ensures r == LoginCall(first, old(refreshToken), reply, resent)
      ensures r.Success? ==> accessToken == Some(r.value.accessToken) && refreshToken == Some(r.value.refreshToken)
      ensures r.Failure? ==> (accessToken, refreshToken) == TokensAfter(IsUnauthorized(first), old(accessToken), old(refreshToken), reply)
      ensures location == LocationAfter(IsUnauthorized(first), old(refreshToken), reply, old(location))
    {
      var settled := Send(first, reply, resent);
      r := LoginOutcome(settled);
      if r.Success? {
        SetTokens(r.value.accessToken, r.value.refreshToken);
      }
    }

    /** `register`: the settled body's tokens are stored as `String` renders them, missing
        or not; an error leaves the tokens as the interceptor left them. */
    method Register(first: Attempt<RegisterReply>, reply: RefreshReply, resent: Attempt<RegisterReply>) returns (r: Attempt<RegisterReply>)
      requires Valid()
      modifies this
      ensures Valid()
      ensures r == Settle(first, RefreshResult(old(refreshToken), reply), resent)
      ensures r.Answered? ==> accessToken == Some(JsString(r.body.accessToken)) && refreshToken == Some(JsString(r.body.refreshToken))
      ensures r.Threw? ==> (accessToken, refreshToken) == TokensAfter(IsUnauthorized(first), old(accessToken), old(refreshToken), reply)
      ensures location == LocationAfter(IsUnauthorized(first), old(refreshToken), reply, old(location))
    {
      r := Send(first, reply, resent);
      if r.Answered? {
        SetTokens(JsString(r.body.accessToken), JsString(r.body.refreshToken));
      }
    }

    /** `logout`: the tokens are cleared whether or not the server call failed, and that
        call's settled error, if any, is passed on. */
    method Logout(first: Attempt<()>, reply: RefreshReply, resent: Attempt<()>) returns (r: Outcome<RequestError>)
      requires Valid()
      modifies this
      ensures Valid()
      ensures accessToken.None? && refreshToken.None?
      ensures r.Pass? <==> Settle(first, RefreshResult(old(refreshToken), reply), resent).Answered?
      ensures r.Fail? ==> Threw(r.error) == Settle(first, RefreshResult(old(refreshToken), reply), resent)
      ensures location == LocationAfter(IsUnauthorized(first), old(refreshToken), reply, old(location))
    {
      var settled := Send(first, reply, resent);
      ClearTokens();
      r := if settled.Threw? then Fail(settled.error) else Pass;
    }
  }

  // ---------------------------------------------------------------- the interceptor and the auth endpoints

  /** A rejected login is answered with 401, and the interceptor treats it like an expired
      session: with no refresh token stored, the caller is told "No refresh token" instead
      of the server's reason, both tokens are cleared and the browser goes to the login
      page. */
  lemma RejectedLoginShowsNoRefreshToken(e: RequestError, access: Option<string>, reply: RefreshReply, resent: LoginAttempt, location: Option<string>)
    requires Rejects401(e)
    ensures LoginCall(Threw(e), None, reply, resent) == Failure(NoRefreshToken)
    ensures TokensAfter(true, access, None, reply) == (None, None)
    ensures LocationAfter(true, None, reply, location) == Some(LoginPath)
  {
    NoRefreshTokenIsNoTimeout();
  }

  lemma NoRefreshTokenIsNoTimeout()
    ensures !Contains(NoRefreshToken, "timeout")
  {
    NotContainsWithoutFirstChar(NoRefreshToken, "timeout");
  }

  /** Without the refresh detour the same 401 shows the server's own reason, which is what
      a login form means to display. */
  lemma RejectedLoginShowsServerMessage(e: RequestError)
    requires Rejects401(e) && !IsTimeout(e) && Truthy(e.response.value.message)
    ensures LoginOutcome(Threw(e)) == Failure(e.response.value.message.value)
  {
  }

  /** A body without tokens is stored as the text "undefined", which later requests then
      send as their bearer token. */
  lemma MissingTokenSentAsUndefined(headers: map<string, string>)
    ensures AttachToken(Some(JsString(None)), headers)[AuthorizationHeader] == "Bearer undefined"
  {
  }
}
