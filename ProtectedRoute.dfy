/** The route guard: a protected page is rendered only while a token cookie
    exists, and is otherwise replaced by a redirect to the login page. */
module ProtectedRoute {
  import opened Http
  import LoginForm

  const LoginPath: string := "/login"

  /** Either a redirect, or the route rendered with the props it was given. */
  datatype RouteDecision<P> = Redirect(to: string) | RenderRoute(props: P)

  function ProtectedRoute<P>(session: Session, props: P): (d: RouteDecision<P>)
    ensures d.Redirect? <==> session.token.None?
    ensures d.Redirect? ==> d.to == LoginPath
    ensures d.RenderRoute? ==> d.props == props
  {
    if session.token.None? then Redirect(LoginPath) else RenderRoute(props)
  }

  /** The decision depends on whether a token is present, never on its value:
      any two sessions that both hold a token, or both lack one, decide alike. */
  lemma DecisionDependsOnlyOnPresence<P>(a: Session, b: Session, props: P)
    requires a.token.Some? == b.token.Some?
    ensures ProtectedRoute(a, props) == ProtectedRoute(b, props)
  {
  }

  /** Even the empty token admits. */
  lemma EmptyTokenAdmits<P>(props: P)
    ensures ProtectedRoute(Session(Some("")), props) == RenderRoute(props)
  {
  }

  /** The two gates are complementary: the guard admits exactly when the login
      page sends the user home, so for every session exactly one of "the
      guard admits" and "the login form is shown" holds. */
  lemma GatesAreComplementary<P>(session: Session, props: P, username: string, password: string,
                                 showSubmitError: bool, errorMsg: string)
    ensures ProtectedRoute(session, props).RenderRoute?
            <==> LoginForm.RenderLoginForm(session, username, password, showSubmitError, errorMsg).RedirectTo?
    ensures ProtectedRoute(session, props).RenderRoute?
            != LoginForm.RenderLoginForm(session, username, password, showSubmitError, errorMsg).Form?
  {
  }

  /** After a successful submit the stored cookie opens every protected route,
      and the login page itself now sends the user home. */
  method LoginOpensProtectedRoutes<P>(form: LoginForm.LoginForm, response: Response<LoginForm.LoginReply>, props: P)
      returns (request: Request)
    requires form.browser.Valid() && response.ok
    modifies form, form.browser
    ensures ProtectedRoute(form.browser.Session(), props) == RenderRoute(props)
    ensures LoginForm.RenderLoginForm(form.browser.Session(), form.username, form.password,
                                      form.showSubmitError, form.errorMsg) == LoginForm.RedirectTo(LoginForm.HomePath)
  {
    request := form.OnSubmitForm(response);
    assert form.browser.Session().token == Some(response.body.jwt_token);
  }
}
