/** The captcha-gated login of passport.100tal.com: `Login` asks for a
    captcha with the credentials; `Captcha.Resolve` submits the credentials
    with the captcha text, then exchanges the returned one-time code for the
    session cookies. Each endpoint is a function from request to response. */
module LoginFlow {
  import opened Api

  /** The envelope of the passport endpoints. */
  datatype LoginResponse<T> = LoginResponse(errcode: int, errmsg: string, data: Option<T>)

  datatype CaptchaData = CaptchaData(captcha: string)

  /** The password-login payload: the code for the token exchange and a passport token. */
  datatype TalToken = TalToken(code: string, passportToken: string)

  /** The token-exchange response: a status the client never reads, and the cookies it keeps. */
  datatype TokenResponse = TokenResponse(errcode: int, errmsg: string, cookies: map<string, string>)

  datatype LoginRequest =
    | CaptchaGet(symbol: string, password: string, scene: int)
    | PasswordLogin(symbol: string, password: string, captcha: string)
    | TokenExchange(code: string)

  /** The `scene` the captcha request names. */
  const LoginScene: int := 3

  /** A pending login: the credentials and the captcha image, a Base64 data URL. */
  datatype Captcha = Captcha(username: string, password: string, image: string) {

    /** Completes the login with the captcha text the user read off `image`. */
    function Resolve(text: string,
                     passwordEndpoint: LoginRequest -> LoginResponse<TalToken>,
                     tokenEndpoint: LoginRequest -> TokenResponse): (call: Call<User, LoginRequest>)
      ensures 1 <= |call.sent| <= 2
      ensures call.sent[0] == PasswordLogin(username, password, text)
      ensures var first := passwordEndpoint(call.sent[0]);
              call.result.Err? <==> (first.errcode != 0 || first.data.None?)
      ensures var first := passwordEndpoint(call.sent[0]);
              call.result.Err? ==> |call.sent| == 1 && call.result.error == ApiException(first.errmsg)
      ensures var first := passwordEndpoint(call.sent[0]);
              call.result.Ok? ==> call.sent == [call.sent[0], TokenExchange(first.data.value.code)]
                                  && call.result.value == User(tokenEndpoint(call.sent[1]).cookies)
    {
      var submit := PasswordLogin(username, password, text);
      var first := passwordEndpoint(submit);
      if first.errcode != 0 || first.data.None? then
        Call(Err(ApiException(first.errmsg)), [submit])
      else
        var exchange := TokenExchange(first.data.value.code);
        Call(Ok(User(tokenEndpoint(exchange).cookies)), [submit, exchange])
    }
  }

  /** Starts a login: asks for a captcha for these credentials. */
  function Login(username: string, password: string,
                 captchaEndpoint: LoginRequest -> LoginResponse<CaptchaData>): (call: Call<Captcha, LoginRequest>)
    ensures call.sent == [CaptchaGet(username, password, LoginScene)]
    ensures var resp := captchaEndpoint(call.sent[0]);
            call.result.Err? <==> (resp.errcode != 0 || resp.data.None?)
    ensures var resp := captchaEndpoint(call.sent[0]);
            resp.errcode != 0 ==> call.result == Err(ApiException(resp.errmsg))
    ensures var resp := captchaEndpoint(call.sent[0]);
            resp.errcode == 0 && resp.data.None? ==> call.result == Err(TypeError)
    ensures var resp := captchaEndpoint(call.sent[0]);
            call.result.Ok? ==> call.result.value == Captcha(username, password, resp.data.value.captcha)
  {
    var request := CaptchaGet(username, password, LoginScene);
    var resp := captchaEndpoint(request);
    if resp.errcode != 0 then Call(Err(ApiException(resp.errmsg)), [request])
    else match resp.data
      case None => Call(Err(TypeError), [request])
      case Some(d) => Call(Ok(Captcha(username, password, d.captcha)), [request])
  }

  /** The session depends on the token-exchange response only through its
      cookies: its status is never checked. */
  lemma ResolveIgnoresExchangeStatus(c: Captcha, text: string,
                                     passwordEndpoint: LoginRequest -> LoginResponse<TalToken>,
                                     tokenEndpoint: LoginRequest -> TokenResponse,
                                     otherEndpoint: LoginRequest -> TokenResponse)
    requires forall q :: tokenEndpoint(q).cookies == otherEndpoint(q).cookies
    ensures c.Resolve(text, passwordEndpoint, tokenEndpoint) == c.Resolve(text, passwordEndpoint, otherEndpoint)
  {
  }

  /** A whole login: the credentials given to `Login` are the ones the
      password login submits, with the captcha text, and the session holds
      the cookies of the exchange of the code that login returned. */
  lemma {:induction false} LoginThenResolve(username: string, password: string, text: string,
                          captchaEndpoint: LoginRequest -> LoginResponse<CaptchaData>,
                          passwordEndpoint: LoginRequest -> LoginResponse<TalToken>,
                          tokenEndpoint: LoginRequest -> TokenResponse)
    requires Login(username, password, captchaEndpoint).result.Ok?
    ensures var c := Login(username, password, captchaEndpoint).result.value;
            var call := c.Resolve(text, passwordEndpoint, tokenEndpoint);
            var first := passwordEndpoint(PasswordLogin(username, password, text));
            && c.image == captchaEndpoint(CaptchaGet(username, password, LoginScene)).data.value.captcha
            && call.sent[0] == PasswordLogin(username, password, text)
            && (first.errcode == 0 && first.data.Some? ==>
                  call.result == Ok(User(tokenEndpoint(TokenExchange(first.data.value.code)).cookies)))
  {
    var c := Login(username, password, captchaEndpoint).result.value;
    assert c.username == username && c.password == password;
  }
}
