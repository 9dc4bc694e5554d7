/** The authentication context: which route a role lands on, and how login, registration
    and logout change the session user, the stored tokens and the route. */
module Auth {
  import opened Wrappers
  import opened Text
  import opened Entities
  import opened Api

  const SuperAdminHome: string := "/super-admin"
  const AdminHome: string := "/admin"
  const InstructorHome: string := "/instructor"
  const StudentHome: string := "/student/dashboard"

  const LoginFallback: string := "Login failed. Please check your credentials."
  const RegistrationFallback: string := "Registration failed. Please try again."
  const OutsideProvider: string := "useAuth must be used within an AuthProvider"

  /** `getRedirectPath`: each staff role has its own area; students and unknown roles go to
      the student dashboard. */
  function RedirectPath(role: string): (path: string)
    ensures role == SuperAdmin ==> path == SuperAdminHome
    ensures role == Admin ==> path == AdminHome
    ensures role == InstructorRole ==> path == InstructorHome
    ensures role !in {SuperAdmin, Admin, InstructorRole} ==> path == StudentHome
  {
    if role == SuperAdmin then SuperAdminHome
    else if role == Admin then AdminHome
    else if role == InstructorRole then InstructorHome
    else StudentHome
  }

  /** Distinct staff roles never share a landing page, and no staff role lands on the
      student dashboard. */
  lemma RedirectPathSeparatesRoles(a: string, b: string)
    requires a in {SuperAdmin, Admin, InstructorRole} && a != b
    ensures RedirectPath(a) != RedirectPath(b)
  {
  }

  /** The message a failed login is rethrown with: the error's own message, else the
      response's message, else its error, else the fixed fallback. */
  function LoginFailureMessage(message: Option<string>, response: Option<ErrorResponse>): (m: string)
    ensures m != ""
    ensures Truthy(message) ==> m == message.value
    ensures !Truthy(message) && response.Some? && Truthy(response.value.message) ==> m == response.value.message.value
    ensures !Truthy(message) && response.Some? && !Truthy(response.value.message) && Truthy(response.value.error) ==>
      m == response.value.error.value
    ensures !Truthy(message) && (response.None? || (!Truthy(response.value.message) && !Truthy(response.value.error))) ==>
      m == LoginFallback
  {
    Or(OrElse(message, if response.Some? then OrElse(response.value.message, response.value.error) else None), LoginFallback)
  }

  /** `useAuth`: the context, or an error outside a provider. */
  function UseAuth<C>(context: Option<C>): (r: Result<C, string>)
    ensures r.Success? <==> context.Some?
    ensures r.Success? ==> r.value == context.value
    ensures r.Failure? ==> r.error == OutsideProvider
  {
    match context
    case Some(c) => Success(c)
    case None => Failure(OutsideProvider)
  }

  /** The provider's state: the session user, the loading flag, the route the router was
      last sent to, and the API client whose tokens it clears. */
  class AuthProvider {
    var user: Option<User>
    var isLoading: bool
    var route: Option<string>
    const api: Client

    ghost predicate Valid()
      reads this, api
    {
      api.Valid()
    }

    /** `isAuthenticated`: `!!user`. */
    function IsAuthenticated(): (b: bool)
      reads this
      ensures b <==> user.Some?
    {
      user.Some?
    }

    constructor(api: Client)
      requires api.Valid()
      ensures Valid() && this.api == api
      ensures user.None? && isLoading && route.None?
    {
      this.api := api;
      user := None;
      isLoading := true;
      route := None;
    }

    /** The mount-time check: whatever is stored, loading ends and nothing else changes. */
    method CheckAuth()
      modifies this
      ensures !isLoading
      ensures user == old(user) && route == old(route)
    {
      if Truthy(api.accessToken) {
        isLoading := false;
      } else {
        isLoading := false;
      }
    }

    /** `login`: success sets the user and routes by role; any failure clears the tokens
        and the user and rethrows the client's message. The client's interceptor may have
        sent the browser to the login page on the way. */
    method Login(first: LoginAttempt, reply: RefreshReply, resent: LoginAttempt) returns (r: Result<User, string>)
      requires Valid()
      modifies this, api
      ensures Valid() && isLoading == old(isLoading)
      ensures IsAuthenticated() <==> r.Success?
      ensures var outcome := LoginCall(first, old(api.refreshToken), reply, resent);
        (r.Success? <==> outcome.Success?)
        && (r.Success? ==>
          r.value == outcome.value.user && user == Some(r.value) && route == Some(RedirectPath(r.value.role))
          && api.accessToken == Some(outcome.value.accessToken) && api.refreshToken == Some(outcome.value.refreshToken))
        && (r.Failure? ==>
          api.accessToken.None? && api.refreshToken.None? && route == old(route)
          && r.error == LoginFailureMessage(Some(outcome.error), None))
      ensures api.location == LocationAfter(IsUnauthorized(first), old(api.refreshToken), reply, old(api.location))
    {
      var outcome := api.Login(first, reply, resent);
      match outcome
      case Success(session) =>
        user := Some(session.user);
        route := Some(RedirectPath(session.user.role));
        r := Success(session.user);
      case Failure(message) =>
        api.ClearTokens();
        user := None;
        r := Failure(LoginFailureMessage(Some(message), None));
    }

    /** `register`: the body's tokens are stored and its user is set; a user routes by
        role, while a body without one fails (reading its role throws) with the fixed
        fallback. A thrown error leaves the user as it was and rethrows the response's
        message or the fallback. */
    method Register(first: Attempt<RegisterReply>, reply: RefreshReply, resent: Attempt<RegisterReply>) returns (r: Result<User, string>)
      requires Valid()
      modifies this, api
      ensures Valid() && isLoading == old(isLoading)
      ensures var settled := Settle(first, RefreshResult(old(api.refreshToken), reply), resent);
        (r.Success? <==> settled.Answered? && settled.body.user.Some?)
        && (settled.Answered? ==>
          user == settled.body.user
          && api.accessToken == Some(JsString(settled.body.accessToken))
          && api.refreshToken == Some(JsString(settled.body.refreshToken)))
        && (r.Success? ==> r.value == settled.body.user.value && route == Some(RedirectPath(r.value.role)))
        && (settled.Answered? && settled.body.user.None? ==> route == old(route) && r == Failure(RegistrationFallback))
        && (settled.Threw? ==>
          user == old(user) && route == old(route)
          && (api.accessToken, api.refreshToken) == TokensAfter(IsUnauthorized(first), old(api.accessToken), old(api.refreshToken), reply)
          && r == Failure(Or(if settled.error.response.Some? then settled.error.response.value.message else None, RegistrationFallback)))
      ensures api.location == LocationAfter(IsUnauthorized(first), old(api.refreshToken), reply, old(api.location))
    {
      var outcome := api.Register(first, reply, resent);
      match outcome
      case Answered(body) =>
        user := body.user;
        if body.user.Some? {
          route := Some(RedirectPath(body.user.value.role));
          r := Success(body.user.value);
        } else {
          r := Failure(RegistrationFallback);
        }
      case Threw(e) =>
        r := Failure(Or(if e.response.Some? then e.response.value.message else None, RegistrationFallback));
    }

    /** `logout`: whether or not the server call fails, the user is cleared, the tokens are
        cleared and the router goes to the login page. */
    method Logout(first: Attempt<()>, reply: RefreshReply, resent: Attempt<()>)
      requires Valid()
      modifies this, api
      ensures Valid() && isLoading == old(isLoading)
      ensures !IsAuthenticated() && user.None?
      ensures api.accessToken.None? && api.refreshToken.None?
      ensures route == Some(LoginPath)
      ensures api.location == LocationAfter(IsUnauthorized(first), old(api.refreshToken), reply, old(api.location))
    {
      var _ := api.Logout(first, reply, resent);
      user := None;
      api.ClearTokens();
      route := Some(LoginPath);
    }
  }

  /** The fallback chain of a failed login never reaches its last step: the client always
      rethrows a non-empty message, and that message is what the user sees. */
  lemma LoginFailureShowsClientMessage(attempt: LoginAttempt)
    requires LoginOutcome(attempt).Failure?
    ensures LoginFailureMessage(Some(LoginOutcome(attempt).error), None) == LoginOutcome(attempt).error
  {
  }
}
