/** Shared vocabulary of the client: optional values, the error kinds the
    client raises, results, the session handle and the status envelope that
    every code.xueersi.com endpoint answers with. */
module Api {

  datatype Option<T> = None | Some(value: T)

  /** Everything an operation of the client can raise. */
  datatype Error =
    | ApiException(what: string)  // the library's own error, carrying a message
    | PlainException              // the bare `Exception()` of the GUI's image decoder
    | Base64Error                 // the decoder's complaint about malformed Base64
    | TypeError                   // Python's error for subscripting None or adding str and int
    | KeyError                    // Python's error for looking up a cookie the session lacks

  datatype Result<T> = Ok(value: T) | Err(error: Error)

  /** The outcome of an operation together with the requests it sent, in order. */
  datatype Call<R, Q> = Call(result: Result<R>, sent: seq<Q>)

  /** A logged-in session: the cookies of the token-exchange response. */
  datatype User = User(cookies: map<string, string>)

  /** The cookie every request made with a session carries. */
  const SessionCookie: string := "xes_rfh"

  predicate HasSessionCookie(u: User) {
    SessionCookie in u.cookies
  }

  /** A session that can authenticate a request: present, and holding the session cookie. */
  predicate Authenticated(user: Option<User>) {
    user.Some? && HasSessionCookie(user.value)
  }

  /** `User.xes_rfh`: the value of the session cookie, or a `KeyError`,
      raised before any request, when the session lacks it. */
  function SessionToken(u: User): (r: Result<string>)
    ensures r.Ok? <==> HasSessionCookie(u)
    ensures r.Ok? ==> r.value == u.cookies[SessionCookie]
    ensures r.Err? ==> r.error == KeyError
  {
    if SessionCookie in u.cookies then Ok(u.cookies[SessionCookie]) else Err(KeyError)
  }

  /** The session cookie a read sends: none without a session, otherwise the
      session's `xes_rfh`, whose absence raises `KeyError`. */
  function CookieOf(user: Option<User>): (r: Result<Option<string>>)
    ensures r.Err? <==> user.Some? && !Authenticated(user)
    ensures r.Err? ==> r.error == KeyError
    ensures r.Ok? ==> r.value.Some? == user.Some?
    ensures r.Ok? && user.Some? ==> r.value.value == user.value.cookies[SessionCookie]
  {
    match user
    case None => Ok(None)
    case Some(u) =>
      match SessionToken(u)
      case Err(e) => Err(e)
      case Ok(token) => Ok(Some(token))
  }

  /** The message of the authorisation error ("not logged in"). */
  const NotLoggedIn: string := "\U{672A}\U{767B}\U{5F55}"

  /** The JSON envelope of code.xueersi.com: a status, two message fields
      and an optional payload. */
  datatype ApiResponse<T> = ApiResponse(stat: int, msg: Option<string>, message: string, data: Option<T>)

  /** The message an error carries: `message` when `msg` is null, else `msg`. */
  function ErrorText(msg: Option<string>, message: string): (what: string)
    ensures msg.None? ==> what == message
    ensures msg.Some? ==> what == msg.value
  {
    match msg
    case None => message
    case Some(m) => m
  }

  /** The status check after a write: success exactly when `stat` is 1. */
  function CheckStat<T>(resp: ApiResponse<T>): (r: Result<()>)
    ensures r.Ok? <==> resp.stat == 1
    ensures r.Err? ==> r.error == ApiException(ErrorText(resp.msg, resp.message))
  {
    if resp.stat != 1 then Err(ApiException(ErrorText(resp.msg, resp.message))) else Ok(())
  }
}
