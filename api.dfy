/**
 * The API gateway client (src/services/api.js): the request interceptor that attaches the
 * stored credential, the response interceptor that ends the session on a 401, the login
 * call with its HTTP Basic header (section 2 of RFC 7617), logout, and the paths and
 * bodies of the calls the views make. The network itself is a parameter: each call's
 * outcome is given as a Reply.
 */
module Api {
  import opened Wrappers
  import opened Text
  import opened Records
  import opened Browser
  import opened Base64
  import Seqs

  datatype Verb = Get | Post | Put | Delete

  /** A request as the backend sees it: method, path and JSON body. */
  datatype Call<B> = Call(verb: Verb, path: string, body: Option<B>)

  /** A rejected call: `status` is error.response?.status, None when no response arrived. */
  datatype HttpError = HttpError(status: Option<int>)

  /** How the backend answered a call. */
  datatype Reply<T> = Ok(value: T) | Fail(error: HttpError)

  const AuthorizationHeader: string := "Authorization"
  const LoginPage: string := "/login"

  /** The axios request config the interceptor receives and changes in place. */
  class RequestConfig {
    var headers: map<string, string>

    constructor(headers0: map<string, string>)
      ensures headers == headers0
    {
      headers := headers0;
    }
  }

  /** The headers after the request interceptor, given the headers before it and the storage. */
  function WithStoredAuth(headers: map<string, string>, storage: map<string, Stored>): (r: map<string, string>)
    requires WellFormed(storage)
    ensures Truthy(storage, AuthKey) ==> AuthorizationHeader in r && r[AuthorizationHeader] == storage[AuthKey].text
    ensures !Truthy(storage, AuthKey) ==> r == headers
    ensures forall k :: k != AuthorizationHeader ==> (k in r <==> k in headers)
    ensures forall k :: k != AuthorizationHeader && k in r ==> r[k] == headers[k]
  {
    if Truthy(storage, AuthKey) then headers[AuthorizationHeader := storage[AuthKey].text] else headers
  }

  /** The request interceptor: sets the Authorization header to the stored credential when one is stored. */
  method InterceptRequest(config: RequestConfig, window: Window)
    requires WellFormed(window.storage)
    modifies config
    ensures config.headers == WithStoredAuth(old(config.headers), window.storage)
  {
    if Truthy(window.storage, AuthKey) {
      config.headers := config.headers[AuthorizationHeader := window.storage[AuthKey].text];
    }
  }

  /**
   * The response interceptor's error path: a 401 ends the session and sends the page to
   * the login screen; every error, 401 or not, is rejected again unchanged.
   */
  method InterceptResponseError(error: HttpError, window: Window) returns (rejection: HttpError)
    modifies window
    ensures rejection == error
    ensures error.status == Some(401) ==>
              window.storage == WithoutSession(old(window.storage)) && window.location == LoginPage
    ensures error.status != Some(401) ==>
              window.storage == old(window.storage) && window.location == old(window.location)
  {
    if error.status == Some(401) {
      window.storage := WithoutSession(window.storage);
      window.location := LoginPage;
    }
    rejection := error;
  }

  /** authService.logout: removes the two session entries and nothing else. */
  method Logout(window: Window)
    modifies window
    ensures window.storage == WithoutSession(old(window.storage))
    ensures window.location == old(window.location)
  {
    window.storage := WithoutSession(window.storage);
  }

  /**
   * "Basic " + btoa(email + ":" + password); None when btoa throws because a character
   * lies above U+00FF.
   */
  function BasicAuthorization(email: string, password: string): (r: Option<string>)
    ensures r.Some? <==> IsLatin1(email + ":" + password)
    ensures r.Some? ==> StartsWith(r.value, "Basic ")
  {
    match Btoa(email + ":" + password)
    case None => None
    case Some(encoded) => Some("Basic " + encoded)
  }

  function IsColon(c: char): bool
  {
    c == ':'
  }

  /**
   * Reads a Basic credential as section 2 of RFC 7617 lays it out: "Basic ", then the
   * base64 of user-id ':' password, the user-id ending at the first colon.
   */
  function ParseBasic(header: string): Option<(string, string)>
  {
    if !StartsWith(header, "Basic ") then None
    else
      match Atob(header[6..])
      case None => None
      case Some(pair) =>
        match Seqs.FindIndex(pair, IsColon)
        case None => None
        case Some(i) => Some((pair[..i], pair[i + 1..]))
  }

  /** The header the login call builds carries exactly the credentials it was given. */
  lemma BasicAuthorizationRoundTrip(email: string, password: string)
    requires IsLatin1(email + ":" + password)
    requires ':' !in email
    ensures BasicAuthorization(email, password).Some?
    ensures ParseBasic(BasicAuthorization(email, password).value) == Some((email, password))
  {
    var pair := email + ":" + password;
    var header := BasicAuthorization(email, password).value;
    BtoaRoundTrip(pair);
    assert header[6..] == Btoa(pair).value;
    assert pair[|email|] == ':';
    assert forall j :: 0 <= j < |email| ==> pair[j] == email[j];
    assert Seqs.FindIndex(pair, IsColon) == Some(|email|);
    assert pair[..|email|] == email && pair[|email| + 1..] == password;
  }

  const LoginPath: string := "/api/users/login"

  datatype LoginBody = LoginBody(email: string, password: string)

  /** The login endpoint's answer. `user` is None when the body carries no user object. */
  datatype LoginResponse = LoginResponse(success: bool, user: Option<User>)

  /** A call as it leaves the client, with the headers the interceptor left on it. */
  datatype Sent<B> = Sent(call: Call<B>, headers: map<string, string>)

  /** The headers the login call asks for: the instance's content type and its own Basic credential. */
  function LoginHeaders(basic: string): map<string, string>
  {
    map["Content-Type" := "application/json", AuthorizationHeader := basic]
  }

  /**
   * authService.login: builds the Basic credential (btoa may throw before anything is sent),
   * posts {email, password} through both interceptors, and yields the response body, or
   * None when the call was rejected.
   */
  method Login(email: string, password: string, window: Window, reply: Reply<LoginResponse>)
    returns (response: Option<LoginResponse>, sent: Option<Sent<LoginBody>>)
    requires WellFormed(window.storage)
    modifies window
    ensures BasicAuthorization(email, password).None? ==>
              response.None? && sent.None?
              && window.storage == old(window.storage) && window.location == old(window.location)
    ensures BasicAuthorization(email, password).Some? ==>
              sent == Some(Sent(Call(Post, LoginPath, Some(LoginBody(email, password))),
                                WithStoredAuth(LoginHeaders(BasicAuthorization(email, password).value), old(window.storage))))
    ensures BasicAuthorization(email, password).Some? && reply.Ok? ==>
              response == Some(reply.value)
              && window.storage == old(window.storage) && window.location == old(window.location)
    ensures BasicAuthorization(email, password).Some? && reply.Fail? ==>
              response.None?
              && (reply.error.status == Some(401) ==>
                    window.storage == WithoutSession(old(window.storage)) && window.location == LoginPage)
              && (reply.error.status != Some(401) ==>
                    window.storage == old(window.storage) && window.location == old(window.location))
  {
    var basic := BasicAuthorization(email, password);
    if basic.None? {
      return None, None;
    }
    var config := new RequestConfig(LoginHeaders(basic.value));
    InterceptRequest(config, window);
    sent := Some(Sent(Call(Post, LoginPath, Some(LoginBody(email, password))), config.headers));
    match reply
    case Ok(body) =>
      response := Some(body);
    case Fail(error) =>
      var _ := InterceptResponseError(error, window);
      response := None;
  }

  /**
   * As written, a credential already in storage replaces the Basic header the login call
   * built, so the header sent is the stored one, whatever was typed.
   */
  lemma LoginHeaderOverriddenByStoredAuth(basic: string, storage: map<string, Stored>)
    requires WellFormed(storage) && Truthy(storage, AuthKey)
    ensures WithStoredAuth(LoginHeaders(basic), storage)[AuthorizationHeader] == storage[AuthKey].text
  {
  }

  /** With nothing stored, the login call sends its own Basic header. */
  lemma LoginHeaderWithoutStoredAuth(basic: string, storage: map<string, Stored>)
    requires WellFormed(storage) && !Truthy(storage, AuthKey)
    ensures WithStoredAuth(LoginHeaders(basic), storage)[AuthorizationHeader] == basic
  {
  }

  // Paths and bodies of the id-addressed calls.

  const HotelsPath: string := "/api/hotels"

  function HotelPath(id: int): string
  {
    HotelsPath + "/" + IntToString(id)
  }

  function RoomPath(id: int): string
  {
    "/api/rooms/" + IntToString(id)
  }

  function BookingPath(id: int): string
  {
    "/api/bookings/" + IntToString(id)
  }

  /** Equal paths under one prefix name equal ids. */
  lemma PrefixedIdInjective(prefix: string, a: int, b: int)
    ensures prefix + IntToString(a) == prefix + IntToString(b) <==> a == b
  {
    if prefix + IntToString(a) == prefix + IntToString(b) {
      assert IntToString(a) == (prefix + IntToString(a))[|prefix|..];
      assert IntToString(b) == (prefix + IntToString(b))[|prefix|..];
      IntToStringInjective(a, b);
    }
  }

  /** Every hotel has its own path: "/api/hotels/" + id names one hotel. */
  lemma HotelPathInjective(a: int, b: int)
    ensures HotelPath(a) == HotelPath(b) <==> a == b
  {
    PrefixedIdInjective(HotelsPath + "/", a, b);
  }

  datatype StatusChange = StatusChange(status: string, changedBy: int, reason: string)

  datatype Cancellation = Cancellation(changedBy: int, reason: string)

  /** bookingService.updateStatus: PUT /api/bookings/{id}/status with {status, changedBy, reason}. */
  function UpdateBookingStatus(id: int, status: string, changedBy: int, reason: string): (c: Call<StatusChange>)
    ensures c.verb == Put && c.body == Some(StatusChange(status, changedBy, reason))
    ensures c.path == BookingPath(id) + "/status"
  {
    Call(Put, BookingPath(id) + "/status", Some(StatusChange(status, changedBy, reason)))
  }

  /** bookingService.cancel: PUT /api/bookings/{id}/cancel with {changedBy, reason}. */
  function CancelBooking(id: int, changedBy: int, reason: string): (c: Call<Cancellation>)
    ensures c.verb == Put && c.body == Some(Cancellation(changedBy, reason))
    ensures c.path == BookingPath(id) + "/cancel"
  {
    Call(Put, BookingPath(id) + "/cancel", Some(Cancellation(changedBy, reason)))
  }

  /** A status change and a cancellation never go to the same path, and each path names one booking. */
  lemma BookingActionPathsDistinct(a: int, b: int)
    ensures UpdateBookingStatus(a, "", 0, "").path != CancelBooking(b, 0, "").path
    ensures UpdateBookingStatus(a, "", 0, "").path == UpdateBookingStatus(b, "", 0, "").path <==> a == b
  {
    var p, q := BookingPath(a) + "/status", BookingPath(b) + "/cancel";
    assert p[|p| - 1] == 's' && q[|q| - 1] == 'l';
    var r := BookingPath(b) + "/status";
    if p == r {
      assert BookingPath(a) == p[..|p| - 7] && BookingPath(b) == r[..|r| - 7];
      PrefixedIdInjective("/api/bookings/", a, b);
    }
  }

  function BookingHistory<B>(id: int): Call<B>
  {
    Call(Get, BookingPath(id) + "/history", None)
  }

  function CreateHotel<B>(hotel: B): Call<B>
  {
    Call(Post, HotelsPath, Some(hotel))
  }

  function UpdateHotel<B>(id: int, hotel: B): Call<B>
  {
    Call(Put, HotelPath(id), Some(hotel))
  }

  function DeleteHotel<B>(id: int): Call<B>
  {
    Call(Delete, HotelPath(id), None)
  }

  function UpdateRoom<B>(id: int, room: B): Call<B>
  {
    Call(Put, RoomPath(id), Some(room))
  }
}
