/** The login form: two text fields, an error line, and the submit that either
    stores the token and goes home or shows the server's message. */
module LoginForm {
  import opened Http

  const LoginUrl: string := "https://apis.ccbp.in/login"
  const TokenCookie: string := "jwt_token"
  const HomePath: string := "/"
  const TokenExpiresDays: int := 30

  /** The body of the login response: a token on success, a message otherwise. */
  datatype LoginReply = LoginReply(jwt_token: string, error_msg: string)

  /** One stored cookie: its value and the options it was set with. */
  datatype CookieEntry = CookieEntry(value: string, expires: int, path: string)

  /** The parts of the browser the form writes: the cookie jar and the history
      stack, whose last entry is the current location. */
  class Browser {
    var cookies: map<string, CookieEntry>
    var history: seq<string>

    ghost predicate Valid()
      reads this
    {
      |history| > 0
    }

    /** What `Cookies.get('jwt_token')` answers. */
    function Session(): (s: Session)
      reads this
      ensures s.token.Some? <==> TokenCookie in cookies
      ensures s.token.Some? ==> s.token.value == cookies[TokenCookie].value
    {
      if TokenCookie in cookies then Http.Session(Some(cookies[TokenCookie].value)) else Http.Session(None)
    }

    constructor (cookies: map<string, CookieEntry>, location: string)
      ensures this.cookies == cookies && history == [location] && Valid()
    {
      this.cookies := cookies;
      history := [location];
    }

    method SetCookie(name: string, value: string, expires: int, path: string)
      modifies this
      ensures cookies == old(cookies)[name := CookieEntry(value, expires, path)]
      ensures history == old(history)
    {
      cookies := cookies[name := CookieEntry(value, expires, path)];
    }

    /** `history.replace`: the current entry is overwritten, the stack does not grow. */
    method Replace(path: string)
      requires Valid()
      modifies this
      ensures Valid() && |history| == |old(history)|
      ensures history == old(history)[..|old(history)| - 1] + [path]
      ensures cookies == old(cookies)
    {
      history := history[..|history| - 1] + [path];
    }
  }

  class LoginForm {
    var username: string
    var password: string
    var showSubmitError: bool
    var errorMsg: string
    const browser: Browser

    constructor (browser: Browser)
      ensures this.browser == browser
      ensures username == "" && password == "" && !showSubmitError && errorMsg == ""
    {
      this.browser := browser;
      username := "";
      password := "";
      showSubmitError := false;
      errorMsg := "";
    }

    /** Stores the token for 30 days on path `/` and replaces the location with `/`. */
    method OnSubmitSuccess(jwtToken: string)
      requires browser.Valid()
      modifies browser
      ensures browser.Valid()
      ensures browser.cookies == old(browser.cookies)[TokenCookie := CookieEntry(jwtToken, TokenExpiresDays, HomePath)]
      ensures browser.history == old(browser.history)[..|old(browser.history)| - 1] + [HomePath]
      ensures browser.Session() == Http.Session(Some(jwtToken))
    {
      browser.SetCookie(TokenCookie, jwtToken, TokenExpiresDays, HomePath);
      browser.Replace(HomePath);
    }

    /** Shows the message; the typed credentials stay. */
    method OnSubmitFailure(message: string)
      modifies this
      ensures showSubmitError && errorMsg == message
      ensures username == old(username) && password == old(password)
    {
      showSubmitError, errorMsg := true, message;
    }

    /** Posts the current credentials, then runs exactly one of the two outcomes. */
    method OnSubmitForm(response: Response<LoginReply>) returns (request: Request)
      requires browser.Valid()
      modifies this, browser
      ensures browser.Valid()
      ensures request == Post(LoginUrl, Credentials(old(username), old(password)))
      ensures username == old(username) && password == old(password)
      ensures response.ok ==>
        && browser.cookies == old(browser.cookies)[TokenCookie := CookieEntry(response.body.jwt_token, TokenExpiresDays, HomePath)]
        && browser.history == old(browser.history)[..|old(browser.history)| - 1] + [HomePath]
        && showSubmitError == old(showSubmitError) && errorMsg == old(errorMsg)
      ensures !response.ok ==>
        && browser.cookies == old(browser.cookies) && browser.history == old(browser.history)
        && showSubmitError && errorMsg == response.body.error_msg
    {
      request := Post(LoginUrl, Credentials(username, password));
      var data := response.body;
      if response.ok {
        OnSubmitSuccess(data.jwt_token);
      } else {
        OnSubmitFailure(data.error_msg);
      }
    }

    method OnEnterUsername(value: string)
      modifies this
      ensures username == value
      ensures password == old(password) && showSubmitError == old(showSubmitError) && errorMsg == old(errorMsg)
    {
      username := value;
    }

    method OnChangePassword(value: string)
      modifies this
      ensures password == value
      ensures username == old(username) && showSubmitError == old(showSubmitError) && errorMsg == old(errorMsg)
    {
      password := value;
    }
  }

  // ---------------------------------------------------------------------
  // What is rendered

  datatype LoginView =
    | RedirectTo(path: string)
    | Form(username: string, password: string, errorLine: Option<string>)

  /** A present token sends the user home; otherwise the form is shown, with
      `*` and the message under it exactly when a submit has failed. */
  function RenderLoginForm(session: Session, username: string, password: string,
                           showSubmitError: bool, errorMsg: string): (v: LoginView)
    ensures v.RedirectTo? <==> session.token.Some?
    ensures v.RedirectTo? ==> v.path == HomePath
    ensures v.Form? ==> v.username == username && v.password == password
    ensures v.Form? ==> (v.errorLine.Some? <==> showSubmitError)
    ensures v.Form? && showSubmitError ==> v.errorLine.value == "*" + errorMsg
  {
    if session.token.Some? then RedirectTo(HomePath)
    else Form(username, password, if showSubmitError then Some("*" + errorMsg) else None)
  }
}
