/** The `API` registry: each logical operation's path and HTTP verb. */
module Endpoints {
  import opened Strings
  import opened Http

  datatype Name =
    | PrivacyPolicy | TermsCondition | Login | Signup | ForgetPassword | SendOtp
    | Logout | RefreshToken | FetchProfile

  /** The two groups of the registry; the grouping is organisational only. */
  datatype Group = NonAuthenticated | Authenticated

  const AllNames: seq<Name> :=
    [PrivacyPolicy, TermsCondition, Login, Signup, ForgetPassword, SendOtp,
     Logout, RefreshToken, FetchProfile]

  function GroupOf(n: Name): Group {
    match n
    case Logout | RefreshToken | FetchProfile => Authenticated
    case _ => NonAuthenticated
  }

  /** `API.<group>.<name>`. */
  function Lookup(n: Name): Endpoint {
    match n
    case PrivacyPolicy => Endpoint("privacy-policy", GET)
    case TermsCondition => Endpoint("user/v1/account/list", GET)
    case Login => Endpoint("user/v1/auth/login", POST)
    case Signup => Endpoint("api/user/v1/auth/register", POST)
    case ForgetPassword => Endpoint("auth/forgot-password", POST)
    case SendOtp => Endpoint("api/user/v1/auth/sendotp", POST)
    case Logout => Endpoint("auth/logout", GET)
    case RefreshToken => Endpoint("auth/refresh-token", GET)
    case FetchProfile => Endpoint("profile", GET)
  }

  lemma AllNamesComplete(n: Name)
    ensures n in AllNames && |AllNames| == 9
  {
  }

  /** Every endpoint of the Authenticated group is fetched with GET. */
  lemma AuthenticatedUseGet(n: Name)
    requires GroupOf(n) == Authenticated
    ensures Lookup(n).verb == GET
  {
  }

  /** The verbs of the non-authenticated group. */
  lemma NonAuthenticatedMethods(n: Name)
    requires GroupOf(n) == NonAuthenticated
    ensures Lookup(n).verb == GET <==> n == PrivacyPolicy || n == TermsCondition
    ensures Lookup(n).verb == POST <==> n in {Login, Signup, ForgetPassword, SendOtp}
  {
  }

  /** SIGNUP is the only registered path that the middleware routes to the register multipart branch. */
  lemma OnlySignupIsRegister(n: Name)
    ensures Contains(Lookup(n).path, REGISTER_ROUTE) <==> n == Signup
  {
    if n == Signup {
      assert StartsWith(Lookup(n).path, REGISTER_ROUTE);
    }
  }

  /** No registered path reaches the update-profile multipart branch. */
  lemma NoUpdateProfileEndpoint(n: Name)
    ensures !Contains(Lookup(n).path, UPDATE_PROFILE_ROUTE)
  {
  }

  /** The nine paths are pairwise distinct. */
  lemma PathsDistinct(a: Name, b: Name)
    requires a != b
    ensures Lookup(a).path != Lookup(b).path
  {
  }
}
