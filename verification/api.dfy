/**
 * The backend client of `lib/api.ts`: the three HTTP calls (log in, register,
 * fetch a user by email), how each settles into a parsed body or an
 * `APIError`, how the registration payload and its failure message are
 * built, and the token helpers over the `auth_token` storage key.
 */
module Api {
  import opened Wrappers
  import opened BrowserStorage

  /** The error every call fails with; no status code means the transport failed. */
  datatype APIError = APIError(message: string, statusCode: Option<int>)

  /** A call that resolves with a value or rejects with an `APIError`. */
  datatype Outcome<+T> = Ok(value: T) | Err(error: APIError)

  datatype LoginRequest = LoginRequest(email: string, password: string)

  datatype LoginResponse = LoginResponse(success: bool, tokenType: Option<string>, message: string)

  /** What a caller passes to `registerUser`; the last two fields may be left out. */
  datatype RegisterRequest = RegisterRequest(
    email: string, password: string, verificationOtp: Option<string>, isVerified: Option<bool>)

  /** The JSON body `registerUser` posts to `/users`. */
  datatype RegisterPayload = RegisterPayload(
    email: string, password: string, verificationOtp: string, isVerified: bool)

  /** The user record the backend returns from `/users` (both POST and GET). */
  datatype UserResponse = UserResponse(id: int, email: string, verificationOtp: string, isVerified: bool)

  /** One entry of a validation `detail` array; `loc` or `msg` may be missing. */
  datatype ValidationIssue = ValidationIssue(loc: Option<seq<string>>, msg: Option<string>)

  /** The `detail` field of a failure body: absent, a plain value, or a validation array. */
  datatype Detail = NoDetail | DetailText(text: string) | DetailList(issues: seq<ValidationIssue>)

  /** The fields the failure path reads from a parsed body. */
  datatype ErrorBody = ErrorBody(message: Option<string>, detail: Detail)

  /**
   * What one `fetch` plus `response.json()` yields: either it threw (no
   * connection, or a body that is not JSON), or a status and the parsed body,
   * seen both as the success shape `B` and through the fields the failure
   * path reads.
   */
  datatype Reply<B> = TransportFailure | Received(status: int, data: B, error: ErrorBody)

  /** The backend's three endpoints, each a function from request to reply. */
  datatype Backend = Backend(
    login: LoginRequest -> Reply<LoginResponse>,
    createUser: RegisterPayload -> Reply<UserResponse>,
    userByEmail: string -> Reply<UserResponse>)

  const NetworkErrorMessage := "Network error. Please check your connection."
  const DefaultOtp := "123456"
  const AuthTokenKey := "auth_token"

  /** `response.ok`: a status in the 2xx range. */
  predicate IsOk(status: int) { 200 <= status <= 299 }

  /** JavaScript's `value || fallback` for a string that may be missing: empty counts as missing. */
  function Or(value: Option<string>, fallback: string): (r: string)
    ensures value.Some? && value.value != "" ==> r == value.value
    ensures value.None? || value.value == "" ==> r == fallback
  {
    if value.Some? && value.value != "" then value.value else fallback
  }

  /** `Array.prototype.join(sep)`. */
  function Join(parts: seq<string>, sep: string): string
  {
    if |parts| == 0 then ""
    else if |parts| == 1 then parts[0]
    else parts[0] + sep + Join(parts[1..], sep)
  }

  /** Appending one more part to a non-empty join adds the separator and the part. */
  lemma {:induction false} JoinSnoc(parts: seq<string>, last: string, sep: string)
    requires |parts| > 0
    ensures Join(parts + [last], sep) == Join(parts, sep) + sep + last
  {
    if |parts| == 1 {
      assert (parts + [last])[1..] == [last];
    } else {
      assert (parts + [last])[1..] == parts[1..] + [last];
      JoinSnoc(parts[1..], last, sep);
    }
  }

  /** A template literal renders a missing value as "undefined". */
  function Rendered(s: Option<string>): string
  {
    match s
    case None => "undefined"
    case Some(v) => v
  }

  /** `` `${e.loc?.join('.')}: ${e.msg}` `` */
  function IssueText(e: ValidationIssue): string
  {
    Rendered(match e.loc case None => None case Some(path) => Some(Join(path, "."))) + ": " + Rendered(e.msg)
  }

  /** `detail.map(IssueText)` */
  function IssueTexts(issues: seq<ValidationIssue>): (r: seq<string>)
    ensures |r| == |issues|
    ensures forall i :: 0 <= i < |issues| ==> r[i] == IssueText(issues[i])
  {
    if issues == [] then [] else [IssueText(issues[0])] + IssueTexts(issues[1..])
  }

  /** The message a failed registration reports. */
  function RegistrationErrorMessage(body: ErrorBody): string
  {
    match body.detail
    case DetailList(issues) => Join(IssueTexts(issues), ", ")
    case DetailText(text) => if text != "" then text else Or(body.message, "Registration failed")
    case NoDetail => Or(body.message, "Registration failed")
  }

  lemma RegistrationErrorMessageCases(body: ErrorBody)
    ensures body.detail.DetailList? && |body.detail.issues| == 1 ==>
      RegistrationErrorMessage(body) == IssueText(body.detail.issues[0])
    ensures body.detail.DetailText? && body.detail.text != "" ==>
      RegistrationErrorMessage(body) == body.detail.text
    ensures body.detail.NoDetail? || (body.detail.DetailText? && body.detail.text == "") ==>
      RegistrationErrorMessage(body) == Or(body.message, "Registration failed")
    ensures body.detail == DetailList([]) ==> RegistrationErrorMessage(body) == ""
  {
  }

  /**
   * A validation array with at least one entry reports every entry, in
   * order, as `loc joined by '.'` + ": " + `msg`, separated by ", ".
   */
  lemma {:induction false} RegistrationMessageAppends(message: Option<string>, issues: seq<ValidationIssue>, e: ValidationIssue)
    requires |issues| > 0
    ensures RegistrationErrorMessage(ErrorBody(message, DetailList(issues + [e])))
         == RegistrationErrorMessage(ErrorBody(message, DetailList(issues))) + ", " + IssueText(e)
  {
    var texts := IssueTexts(issues);
    assert IssueTexts(issues + [e]) == texts + [IssueText(e)];
    JoinSnoc(texts, IssueText(e), ", ");
  }

  /** The 422 reply of a malformed email yields "body.email: invalid format". */
  lemma ValidationMessageExample()
    ensures RegistrationErrorMessage(ErrorBody(None, DetailList([ValidationIssue(Some(["body", "email"]), Some("invalid format"))])))
         == "body.email: invalid format"
  {
    var issue := ValidationIssue(Some(["body", "email"]), Some("invalid format"));
    assert Join(["body", "email"], ".") == "body.email" by {
      assert ["body", "email"][1..] == ["email"];
    }
    assert IssueText(issue) == "body.email: invalid format";
    assert IssueTexts([issue]) == [IssueText(issue)];
  }

  /**
   * How every call settles: a 2xx reply resolves with the parsed body
   * unchanged, any other reply rejects with `describe`'s message and the
   * status, and a transport or JSON failure rejects with the network error
   * and no status.
   */
  function Settle<B>(reply: Reply<B>, describe: ErrorBody -> string): (r: Outcome<B>)
    ensures r.Ok? <==> reply.Received? && IsOk(reply.status)
    ensures r.Ok? ==> r.value == reply.data
    ensures r.Err? && r.error.statusCode.None? <==> reply.TransportFailure?
    ensures reply.TransportFailure? ==> r.error.message == NetworkErrorMessage
    ensures r.Err? && reply.Received? ==>
      r.error == APIError(describe(reply.error), Some(reply.status)) && !IsOk(r.error.statusCode.value)
  {
    match reply
    case TransportFailure => Err(APIError(NetworkErrorMessage, None))
    case Received(status, data, error) =>
      if IsOk(status) then Ok(data) else Err(APIError(describe(error), Some(status)))
  }

  /** `loginUser`: POST /login with the credentials. */
  function LoginUser(credentials: LoginRequest, server: Backend): (r: Outcome<LoginResponse>)
    ensures r.Ok? <==> server.login(credentials).Received? && IsOk(server.login(credentials).status)
    ensures r.Err? && server.login(credentials).Received? ==>
      r.error == APIError(Or(server.login(credentials).error.message, "Login failed"),
                          Some(server.login(credentials).status))
  {
    Settle(server.login(credentials), (b: ErrorBody) => Or(b.message, "Login failed"))
  }

  /**
   * The body `registerUser` posts: a missing or empty verification code
   * becomes "123456" (`||`), while `is_verified` falls back to false only
   * when it is missing (`??`).
   */
  function RegisterPayloadOf(data: RegisterRequest): (p: RegisterPayload)
    ensures p.email == data.email && p.password == data.password
    ensures p.verificationOtp == DefaultOtp <==>
      data.verificationOtp.None? || data.verificationOtp.value in {"", DefaultOtp}
    ensures data.verificationOtp.Some? && data.verificationOtp.value != "" ==>
      p.verificationOtp == data.verificationOtp.value
    ensures p.isVerified <==> data.isVerified == Some(true)
  {
    RegisterPayload(
      data.email, data.password, Or(data.verificationOtp, DefaultOtp),
      match data.isVerified case None => false case Some(v) => v)
  }

  /** `registerUser`: POST /users with the defaulted payload. */
  function RegisterUser(data: RegisterRequest, server: Backend): (r: Outcome<UserResponse>)
    ensures var reply := server.createUser(RegisterPayloadOf(data));
      && (r.Ok? <==> reply.Received? && IsOk(reply.status))
      && (r.Err? && reply.Received? ==>
            r.error == APIError(RegistrationErrorMessage(reply.error), Some(reply.status)))
  {
    Settle(server.createUser(RegisterPayloadOf(data)), RegistrationErrorMessage)
  }

  /** `getUserByEmail`: GET /users/{email}. */
  function GetUserByEmail(email: string, server: Backend): (r: Outcome<UserResponse>)
    ensures r.Ok? <==> server.userByEmail(email).Received? && IsOk(server.userByEmail(email).status)
    ensures r.Err? && server.userByEmail(email).Received? ==>
      r.error == APIError(Or(server.userByEmail(email).error.message, "Failed to fetch user"),
                          Some(server.userByEmail(email).status))
  {
    Settle(server.userByEmail(email), (b: ErrorBody) => Or(b.message, "Failed to fetch user"))
  }

  // ------------------------------------------------ token helpers

  /**
   * `setAuthToken`. `window` is null where `typeof window === 'undefined'`
   * (server-side rendering); there every helper does nothing.
   */
  method SetAuthToken(window: LocalStorage?, token: string)
    modifies window
    ensures window != null ==> window.items == old(window.items)[AuthTokenKey := token]
  {
    if window != null {
      window.SetItem(AuthTokenKey, token);
    }
  }

  /** `getAuthToken` */
  method GetAuthToken(window: LocalStorage?) returns (token: Option<string>)
    ensures window == null ==> token.None?
    ensures window != null ==> token == Lookup(window.items, AuthTokenKey)
  {
    if window != null {
      token := window.GetItem(AuthTokenKey);
    } else {
      token := None;
    }
  }

  /** `removeAuthToken` */
  method RemoveAuthToken(window: LocalStorage?)
    modifies window
    ensures window != null ==> window.items == old(window.items) - {AuthTokenKey}
  {
    if window != null {
      window.RemoveItem(AuthTokenKey);
    }
  }

  /** `isAuthenticated`: a token is stored (an empty one counts, unlike in the session). */
  method IsAuthenticated(window: LocalStorage?) returns (b: bool)
    ensures b <==> window != null && AuthTokenKey in window.items
  {
    var token := GetAuthToken(window);
    b := token.Some?;
  }

  /**
   * The helpers used in sequence: with a window, reading after storing `t`
   * gives `t`, and after removing the token nobody is authenticated; without
   * a window nothing is stored and nothing is read.
   */
  method TokenLifecycle(window: LocalStorage?, t: string) returns (read: Option<string>, authenticated: bool)
    modifies window
    ensures window != null ==> read == Some(t) && !authenticated
    ensures window == null ==> read.None? && !authenticated
    ensures window != null ==> window.items == old(window.items) - {AuthTokenKey}
  {
    SetAuthToken(window, t);
    read := GetAuthToken(window);
    RemoveAuthToken(window);
    authenticated := IsAuthenticated(window);
  }
}
