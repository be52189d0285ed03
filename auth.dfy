/** The credentials sign-in and the JWT/session callbacks: the access-token lifecycle with time as a parameter. */
module Auth {
  import opened Wrappers
  import opened Text

  /** The submitted form; either field may be missing. */
  datatype Credentials = Credentials(email: Option<string>, password: Option<string>)

  /** The login endpoint's answer. */
  datatype LoginResponse = LoginResponse(
    userId: string, userEmail: string, accessToken: string, refreshToken: string, expiresIn: int)

  /** The user `authorize` hands to the session machinery. */
  datatype ExtendedUser = ExtendedUser(
    id: string, email: string, accessToken: string, refreshToken: string, expiresIn: int)

  /** The refresh endpoint's answer; it may omit a new refresh token. */
  datatype RefreshResponse = RefreshResponse(accessToken: string, refreshToken: Option<string>, expiresIn: int)

  /** The JWT: the subject, the other standard claims (carried along untouched), and the extended fields. */
  datatype Token = Token(
    sub: Option<string>,
    claims: map<string, string>,
    accessToken: Option<string>,
    refreshToken: Option<string>,
    accessTokenExpires: Option<int>,
    error: Option<string>)

  /** The session as NextAuth passes it in. */
  datatype SessionUser = SessionUser(name: Option<string>, email: Option<string>, image: Option<string>)
  datatype Session = Session(user: Option<SessionUser>, expires: string)

  /** The session the application sees. */
  datatype ExtendedSessionUser = ExtendedSessionUser(id: string, email: string, name: Option<string>, image: Option<string>)
  datatype ExtendedSession = ExtendedSession(
    user: ExtendedSessionUser, expires: string, accessToken: Option<string>, error: Option<string>)

  const RefreshError: string := "RefreshAccessTokenError"

  /** `authorize(credentials)`; `login` stands for the login request (`Failure` when it throws). */
  function Authorize(credentials: Option<Credentials>,
                     login: (string, string) -> Result<LoginResponse, string>): (u: Option<ExtendedUser>)
    ensures (credentials.None? || !Truthy(credentials.value.email) || !Truthy(credentials.value.password)) ==> u.None?
    ensures u.Some? <==>
      credentials.Some? && Truthy(credentials.value.email) && Truthy(credentials.value.password)
      && login(credentials.value.email.value, credentials.value.password.value).Success?
    ensures u.Some? ==>
      var data := login(credentials.value.email.value, credentials.value.password.value).value;
      u.value == ExtendedUser(data.userId, data.userEmail, data.accessToken, data.refreshToken, data.expiresIn)
  {
    if credentials.None? || !Truthy(credentials.value.email) || !Truthy(credentials.value.password) then None
    else
      match login(credentials.value.email.value, credentials.value.password.value)
      case Failure(_) => None
      case Success(data) =>
        Some(ExtendedUser(data.userId, data.userEmail, data.accessToken, data.refreshToken, data.expiresIn))
  }

  /** `refreshAccessToken(token)` at time `now` (milliseconds); `refresh` stands for the refresh request. */
  function RefreshAccessToken(token: Token, now: int, refresh: string -> Result<RefreshResponse, string>): (t: Token)
    ensures t.sub == token.sub && t.claims == token.claims
    ensures !Truthy(token.refreshToken) ==> t == token.(error := Some(RefreshError))
    ensures Truthy(token.refreshToken) && refresh(token.refreshToken.value).Failure? ==>
      t == token.(error := Some(RefreshError))
    ensures Truthy(token.refreshToken) && refresh(token.refreshToken.value).Success? ==>
      var answer := refresh(token.refreshToken.value).value;
      t.accessToken == Some(answer.accessToken)
      && t.accessTokenExpires == Some(now + answer.expiresIn * 1000)
      && t.refreshToken == (if answer.refreshToken.Some? then answer.refreshToken else token.refreshToken)
      && t.error == token.error
  {
    if !Truthy(token.refreshToken) then token.(error := Some(RefreshError))
    else
      match refresh(token.refreshToken.value)
      case Failure(_) => token.(error := Some(RefreshError))
      case Success(answer) =>
        token.(accessToken := Some(answer.accessToken),
               accessTokenExpires := Some(now + answer.expiresIn * 1000),
               refreshToken := if answer.refreshToken.Some? then answer.refreshToken else token.refreshToken)
  }

  /** `token.accessTokenExpires && now < token.accessTokenExpires` */
  predicate IsFresh(token: Token, now: int) {
    token.accessTokenExpires.Some? && token.accessTokenExpires.value != 0 && now < token.accessTokenExpires.value
  }

  /** The `jwt` callback at time `now`. `account` and `user` are present only on sign-in. */
  function Jwt(token: Token, account: bool, user: Option<ExtendedUser>, now: int,
               refresh: string -> Result<RefreshResponse, string>): (t: Token)
    ensures account && user.Some? ==>
      t == token.(accessToken := Some(user.value.accessToken), refreshToken := Some(user.value.refreshToken),
                  accessTokenExpires := Some(now + user.value.expiresIn * 1000))
    ensures !(account && user.Some?) && IsFresh(token, now) ==> t == token
    ensures !(account && user.Some?) && !IsFresh(token, now) ==> t == RefreshAccessToken(token, now, refresh)
  {
    if account && user.Some? then
      token.(accessToken := Some(user.value.accessToken), refreshToken := Some(user.value.refreshToken),
             accessTokenExpires := Some(now + user.value.expiresIn * 1000))
    else if IsFresh(token, now) then token
    else RefreshAccessToken(token, now, refresh)
  }

  /** The `session` callback. */
  function SessionOf(session: Session, token: Token): (s: ExtendedSession)
    ensures s.user.id == token.sub.GetOr("")
    ensures s.accessToken == token.accessToken && s.error == token.error
    ensures s.expires == session.expires
    ensures session.user.None? ==> s.user.email == "" && s.user.name.None? && s.user.image.None?
    ensures session.user.Some? ==>
      s.user.email == session.user.value.email.GetOr("")
      && s.user.name == session.user.value.name && s.user.image == session.user.value.image
  {
    var u := session.user.GetOr(SessionUser(None, None, None));
    ExtendedSession(ExtendedSessionUser(token.sub.GetOr(""), u.email.GetOr(""), u.name, u.image),
                    session.expires, token.accessToken, token.error)
  }

  /** A token issued at sign-in passes through unchanged for as long as it lives. */
  lemma SignedInTokenPassesThrough(token: Token, user: ExtendedUser, signedInAt: int, now: int,
                                   refresh: string -> Result<RefreshResponse, string>)
    requires signedInAt >= 0 && user.expiresIn > 0
    requires signedInAt <= now < signedInAt + user.expiresIn * 1000
    ensures var issued := Jwt(token, true, Some(user), signedInAt, refresh);
      Jwt(issued, false, None, now, refresh) == issued
  {
  }

  /** Once the token has expired, the next call asks for a refresh; with no refresh token
      held, the error flag is set and repeated calls leave the token as it is. */
  lemma ExpiredWithoutRefreshTokenIsStable(token: Token, now: int, later: int,
                                           refresh: string -> Result<RefreshResponse, string>)
    requires !IsFresh(token, now) && now <= later && !Truthy(token.refreshToken)
    ensures var t1 := Jwt(token, false, None, now, refresh);
      t1 == token.(error := Some(RefreshError)) && Jwt(t1, false, None, later, refresh) == t1
  {
  }

  /** A successful refresh that returns a positive lifetime makes the token fresh again until it ends. */
  lemma RefreshRenewsLifetime(token: Token, now: int, later: int, refresh: string -> Result<RefreshResponse, string>)
    requires Truthy(token.refreshToken) && refresh(token.refreshToken.value).Success?
    requires now >= 0 && refresh(token.refreshToken.value).value.expiresIn > 0
    requires now <= later < now + refresh(token.refreshToken.value).value.expiresIn * 1000
    ensures IsFresh(RefreshAccessToken(token, now, refresh), later)
  {
  }

  /** A failed or impossible refresh keeps every token field and only raises the error flag. */
  lemma FailedRefreshKeepsToken(token: Token, now: int, refresh: string -> Result<RefreshResponse, string>)
    requires !Truthy(token.refreshToken) || refresh(token.refreshToken.value).Failure?
    ensures var t := RefreshAccessToken(token, now, refresh);
      t.accessToken == token.accessToken && t.refreshToken == token.refreshToken
      && t.accessTokenExpires == token.accessTokenExpires && t.error == Some(RefreshError)
  {
  }

  /** The session shows the token's access token and error flag, whatever the session carried. */
  lemma SessionReflectsRefreshFailure(session: Session, token: Token, now: int,
                                      refresh: string -> Result<RefreshResponse, string>)
    requires !IsFresh(token, now) && !Truthy(token.refreshToken)
    ensures SessionOf(session, Jwt(token, false, None, now, refresh)).error == Some(RefreshError)
    ensures SessionOf(session, Jwt(token, false, None, now, refresh)).accessToken == token.accessToken
  {
  }
}
