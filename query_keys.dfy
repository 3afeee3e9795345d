/** The query-key builders: every key is its group's `all` prefix followed by the query's name. */
module QueryKeys {

  datatype Group = NonAuthenticated | Authenticated

  datatype KeyName =
    | PrivacyPolicy | TermsCondition | Login | Signup | SendOtp | ForgotPassword
    | Profile | Logout | UpdateToken

  const AuthAll: seq<string> := ["auth"]
  const AppAll: seq<string> := ["app"]

  function GroupOf(k: KeyName): Group {
    match k
    case Profile | Logout | UpdateToken => Authenticated
    case _ => NonAuthenticated
  }

  /** `queryKeys.<group>.all`. */
  function All(g: Group): seq<string> {
    match g
    case NonAuthenticated => AuthAll
    case Authenticated => AppAll
  }

  /** The name a builder appends. */
  function Label(k: KeyName): string {
    match k
    case PrivacyPolicy => "privacypolicy"
    case TermsCondition => "termscondition"
    case Login => "login"
    case Signup => "signup"
    case SendOtp => "sendotp"
    case ForgotPassword => "forgotpassword"
    case Profile => "profile"
    case Logout => "logout"
    case UpdateToken => "updatetoken"
  }

  /** `queryKeys.<group>.<name>()`: `[...all, name]`. */
  function Key(k: KeyName): (key: seq<string>)
    ensures |key| == 2 && key[1] == Label(k)
    ensures key[0] == (if GroupOf(k) == Authenticated then "app" else "auth")
  {
    All(GroupOf(k)) + [Label(k)]
  }

  /** A group's `all` key is a prefix of exactly the keys of that group, so invalidating with it covers the group and nothing else. */
  lemma AllIsGroupPrefix(g: Group, k: KeyName)
    ensures All(g) <= Key(k) <==> GroupOf(k) == g
  {
    if GroupOf(k) != g {
      assert Key(k)[0] != All(g)[0];
    }
  }

  /** The nine keys are pairwise distinct. */
  lemma KeysDistinct(a: KeyName, b: KeyName)
    requires a != b
    ensures Key(a) != Key(b)
  {
    assert Label(a) != Label(b);
    assert Key(a)[1] != Key(b)[1];
  }
}
