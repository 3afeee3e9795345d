/** The `auth` slice: session flag, user data and the two tokens. */
module AuthReducer {
  import opened JsValue

  datatype AuthState = AuthState(
    isAuthenticated: bool,
    userData: Value,
    accessToken: Value,
    refreshToken: Value)

  datatype LoginPayload = LoginPayload(userData: Value, accessToken: Value, refreshToken: Value)
  datatype TokenPayload = TokenPayload(accessToken: Value, refreshToken: Value)

  datatype Action =
    | Login(login: LoginPayload)
    | Logout
    | RefreshToken(tokens: TokenPayload)

  /** Unauthenticated, with no user data and no tokens. */
  const Initial := AuthState(false, Null, Null, Null)

  /** The slice's reducer: the state after one action. */
  function Apply(s: AuthState, a: Action): AuthState {
    match a
    case Login(p) =>
      s.(isAuthenticated := true, userData := p.userData,
         accessToken := p.accessToken, refreshToken := p.refreshToken)
    case Logout =>
      s.(accessToken := Null, refreshToken := Null, userData := Null, isAuthenticated := false)
    case RefreshToken(t) =>
      s.(accessToken := t.accessToken, refreshToken := t.refreshToken)
  }

  /** The slice's draft state, whose fields the case reducers assign in place. */
  class AuthSlice {
    var isAuthenticated: bool
    var userData: Value
    var accessToken: Value
    var refreshToken: Value

    function State(): AuthState
      reads this
    {
      AuthState(isAuthenticated, userData, accessToken, refreshToken)
    }

    constructor ()
      ensures State() == Initial
    {
      isAuthenticated, userData, accessToken, refreshToken := false, Null, Null, Null;
    }

    /** `loginReducer`: authenticated, with user data and tokens taken from the payload. */
    method LoginReducer(p: LoginPayload)
      modifies this
      ensures State() == Apply(old(State()), Login(p))
      ensures isAuthenticated && userData == p.userData
      ensures accessToken == p.accessToken && refreshToken == p.refreshToken
    {
      isAuthenticated := true;
      userData := p.userData;
      accessToken := p.accessToken;
      refreshToken := p.refreshToken;
    }

    /** `logoutReducer`: both tokens and the user data cleared, session flag false. */
    method LogoutReducer()
      modifies this
      ensures State() == Apply(old(State()), Logout)
      ensures State() == Initial
    {
      accessToken := Null;
      refreshToken := Null;
      userData := Null;
      isAuthenticated := false;
    }

    /** `refreshTokenReducer`: only the two tokens change. */
    method RefreshTokenReducer(t: TokenPayload)
      modifies this
      ensures State() == Apply(old(State()), RefreshToken(t))
      ensures isAuthenticated == old(isAuthenticated) && userData == old(userData)
      ensures accessToken == t.accessToken && refreshToken == t.refreshToken
    {
      accessToken := t.accessToken;
      refreshToken := t.refreshToken;
    }
  }

  /** The initial state is unauthenticated and holds no user data or token. */
  lemma InitialIsLoggedOut()
    ensures !Initial.isAuthenticated
    ensures Initial.userData == Null && Initial.accessToken == Null && Initial.refreshToken == Null
  {
  }

  /** Whatever the state, logging out returns the slice to its initial state. */
  lemma LogoutResetsToInitial(s: AuthState)
    ensures Apply(s, Logout) == Initial
  {
  }

  /** Logging out twice is the same as logging out once. */
  lemma LogoutIdempotent(s: AuthState)
    ensures Apply(Apply(s, Logout), Logout) == Apply(s, Logout)
  {
  }

  /** A login is forgotten entirely by a later logout. */
  lemma LoginThenLogout(s: AuthState, p: LoginPayload)
    ensures Apply(Apply(s, Login(p)), Logout) == Initial
  {
  }

  /** Refreshing tokens replaces both tokens and keeps the session flag and user data, including while logged out. */
  lemma RefreshKeepsSession(s: AuthState, t: TokenPayload)
    ensures Apply(s, RefreshToken(t)).isAuthenticated == s.isAuthenticated
    ensures Apply(s, RefreshToken(t)).userData == s.userData
    ensures Apply(s, RefreshToken(t)).accessToken == t.accessToken
    ensures Apply(s, RefreshToken(t)).refreshToken == t.refreshToken
  {
  }
}
