/**
 * The session store (src/utils/auth.js): the signed-in user and the loading flag of
 * AuthProvider, the restore effect run at start-up, login with its admin-only acceptance
 * rule, logout, and the useAuth accessor.
 */
module Auth {
  import opened Wrappers
  import opened Records
  import opened Browser
  import Api

  const AdminRole: string := "ADMIN"
  const InvalidCredentials: string := "Invalid credentials or insufficient permissions"
  const LoginFailed: string := "Login failed. Please check your credentials."
  const OutsideProvider: string := "useAuth must be used within AuthProvider"

  /** What login resolves to: {success: true} or {success: false, error}. */
  datatype LoginResult = LoginResult(success: bool, error: Option<string>)

  datatype Decision = Accept(user: User) | Reject(error: string)

  /**
   * The verdict on authService.login's outcome: None is a rejected call (including btoa
   * throwing); a successful response without a user throws when its role is read, and that
   * is caught like any other error.
   */
  function Decide(response: Option<Api.LoginResponse>): (d: Decision)
    ensures d.Accept? <==>
              response.Some? && response.value.success && response.value.user.Some?
              && response.value.user.value.role == AdminRole
    ensures d.Accept? ==> response.Some? && Some(d.user) == response.value.user && d.user.role == AdminRole
    ensures d.Reject? && response.Some? && response.value.success && response.value.user.Some? ==>
              d.error == InvalidCredentials
    ensures d.Reject? && response.Some? && !response.value.success ==> d.error == InvalidCredentials
    ensures response.None? || (response.value.success && response.value.user.None?) ==>
              d == Reject(LoginFailed)
  {
    match response
    case None => Reject(LoginFailed)
    case Some(r) =>
      if !r.success then Reject(InvalidCredentials)
      else if r.user.None? then Reject(LoginFailed)
      else if r.user.value.role == AdminRole then Accept(r.user.value)
      else Reject(InvalidCredentials)
  }

  /** No principal whose role is not ADMIN is ever accepted, whatever the server says. */
  lemma NonAdminNeverAccepted(response: Option<Api.LoginResponse>)
    requires response.Some? && response.value.user.Some? && response.value.user.value.role != AdminRole
    ensures Decide(response).Reject? && Decide(response).error == InvalidCredentials
  {
  }

  class AuthProvider {
    const window: Window
    var user: Option<User>
    var loading: bool

    ghost predicate Valid()
      reads this, window
    {
      WellFormed(window.storage)
    }

    /** useState(null) for the user and useState(true) for loading. */
    constructor(window: Window)
      requires WellFormed(window.storage)
      ensures Valid() && this.window == window
      ensures user == None && loading
    {
      this.window := window;
      user := None;
      loading := true;
    }

    /** The start-up effect: adopt the stored user only when both entries are present; loading ends. */
    method Restore()
      requires Valid()
      modifies this
      ensures Valid() && !loading
      ensures Truthy(window.storage, UserKey) && Truthy(window.storage, AuthKey) ==>
                user == Some(window.storage[UserKey].user)
      ensures !(Truthy(window.storage, UserKey) && Truthy(window.storage, AuthKey)) ==> user == old(user)
    {
      if Truthy(window.storage, UserKey) && Truthy(window.storage, AuthKey) {
        user := Some(window.storage[UserKey].user);
      }
      loading := false;
    }

    /**
     * login(email, password): on acceptance stores "Basic " + btoa(email:password) under
     * "auth" and the user under "user" and signs the user in; otherwise nothing of the
     * session changes (a 401 answer still goes through the response interceptor).
     */
    method Login(email: string, password: string, reply: Api.Reply<Api.LoginResponse>)
      returns (result: LoginResult, sent: Option<Api.Sent<Api.LoginBody>>)
      requires Valid()
      modifies this, window
      ensures Valid() && loading == old(loading)
      ensures result.success <==> (Api.BasicAuthorization(email, password).Some? && reply.Ok?
                                   && Decide(Some(reply.value)).Accept?)
      ensures result.success ==>
                && result.error == None
                && user == reply.value.user
                && window.storage == old(window.storage)[AuthKey := Text(Api.BasicAuthorization(email, password).value)]
                                                        [UserKey := UserJson(reply.value.user.value)]
                && window.location == old(window.location)
      ensures !result.success ==> user == old(user) && result.error.Some?
      ensures !result.success && (reply.Ok? || Api.BasicAuthorization(email, password).None?) ==>
                window.storage == old(window.storage) && window.location == old(window.location)
      ensures !result.success && reply.Ok? && Api.BasicAuthorization(email, password).Some? ==>
                result.error == Some(Decide(Some(reply.value)).error)
      ensures Api.BasicAuthorization(email, password).None? || reply.Fail? ==>
                result == LoginResult(false, Some(LoginFailed))
      ensures Api.BasicAuthorization(email, password).Some? && reply.Fail? ==>
                if reply.error.status == Some(401) then
                  window.storage == WithoutSession(old(window.storage)) && window.location == Api.LoginPage
                else
                  window.storage == old(window.storage) && window.location == old(window.location)
      ensures sent == if Api.BasicAuthorization(email, password).None? then None
                      else Some(Api.Sent(Api.Call(Api.Post, Api.LoginPath, Some(Api.LoginBody(email, password))),
                                         Api.WithStoredAuth(Api.LoginHeaders(Api.BasicAuthorization(email, password).value),
                                                            old(window.storage))))
    {
      var response;
      response, sent := Api.Login(email, password, window, reply);
      var decision := Decide(response);
      match decision
      case Accept(u) =>
        var basic := Api.BasicAuthorization(email, password);
        window.storage := window.storage[AuthKey := Text(basic.value)];
        window.storage := window.storage[UserKey := UserJson(u)];
        user := Some(u);
        result := LoginResult(true, None);
      case Reject(error) =>
        result := LoginResult(false, Some(error));
    }

    /** logout: removes both session entries and signs the user out, whatever the state. */
    method Logout()
      requires Valid()
      modifies this, window
      ensures Valid() && user == None && loading == old(loading)
      ensures window.storage == WithoutSession(old(window.storage))
      ensures window.location == old(window.location)
    {
      Api.Logout(window);
      user := None;
    }
  }

  /** useAuth: the provider's value, or the error thrown when no AuthProvider encloses the caller. */
  function UseAuth(context: Option<AuthProvider>): (r: Result<AuthProvider, string>)
    ensures r.Success? <==> context.Some?
    ensures r.Success? ==> r.value == context.value
    ensures r.Failure? ==> r.error == OutsideProvider
  {
    match context
    case Some(provider) => Success(provider)
    case None => Failure(OutsideProvider)
  }
}
