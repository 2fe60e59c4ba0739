/** Values shared by every component of the job portal: the fetch status, the
    session cookie as the components read it, and the requests they send. */
module Http {

  datatype Option<+T> = None | Some(value: T)

  /** The four values of `apiStatusConstants`, declared identically in every
      component that fetches. */
  datatype ApiStatus = Initial | InProgress | Success | Failure

  /** What `Cookies.get('jwt_token')` answers at the moment it is asked. */
  datatype Session = Session(token: Option<string>)

  /** A settled `fetch`: the `ok` flag and the value `response.json()` yields. */
  datatype Response<+B> = Response(ok: bool, body: B)

  /** The JSON object the login form posts. */
  datatype Credentials = Credentials(username: string, password: string)

  /** The requests the components send. A GET always carries an
      `Authorization` header; the login POST carries none. */
  datatype Request =
    | Get(url: string, authorization: string)
    | Post(url: string, body: Credentials)

  /** One request as it left a component, with the `apiStatus` the component
      held at that moment. */
  datatype Sent = Sent(request: Request, statusWhenSent: ApiStatus)

  const BearerPrefix: string := "Bearer "

  /** The value of the `Authorization` header, built by the template literal
      `Bearer ${jwtToken}`: an absent token is spelled out as "undefined". */
  function BearerHeader(session: Session): (h: string)
    ensures |h| >= |BearerPrefix| && h[..|BearerPrefix|] == BearerPrefix
    ensures session.token.Some? ==> h[|BearerPrefix|..] == session.token.value
    ensures session.token.None? ==> h[|BearerPrefix|..] == "undefined"
  {
    match session.token
    case Some(t) => BearerPrefix + t
    case None => BearerPrefix + "undefined"
  }

  /** Distinct present tokens give distinct headers. */
  lemma BearerHeaderInjective(a: Session, b: Session)
    requires a.token.Some? && b.token.Some?
    requires BearerHeader(a) == BearerHeader(b)
    ensures a == b
  {
  }

  /** An absent token is indistinguishable on the wire from the token "undefined". */
  lemma AbsentTokenSentAsUndefined()
    ensures BearerHeader(Session(None)) == BearerHeader(Session(Some("undefined")))
  {
  }
}
