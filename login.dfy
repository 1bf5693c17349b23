/** The login page: its login/register mode, form validation, redirect by role and the role's feature list. */
module Login {
  import opened Wrappers
  import opened UserRole
  import AppRoutes

  /** `searchParams.get('mode') || 'login'`: a missing or empty mode means login. */
  function ModeOf(param: Option<string>): (mode: string)
    ensures mode != ""
    ensures (param.None? || param.value == "") ==> mode == "login"
    ensures param.Some? && param.value != "" ==> mode == param.value
  {
    match param
    case Some(m) => if m == "" then "login" else m
    case None => "login"
  }

  /** The page opens in login mode for every mode except `signup`. */
  predicate StartsInLogin(mode: string) {
    mode != "signup"
  }

  /** Only an explicit `signup` opens the register form; no parameter at all opens the login form. */
  lemma DefaultIsLogin(param: Option<string>)
    ensures !StartsInLogin(ModeOf(param)) <==> param == Some("signup")
  {
  }

  /** What submitting the form does: an error toast, or a success toast and a navigation. */
  datatype Outcome =
    | Rejected(error: string)
    | Accepted(noticeKey: string, target: string)

  /**
   * `handleSubmit`: an empty email or password is rejected; anything else
   * that reaches the handler is accepted, without checking the credentials
   * anywhere, and sends a farmer to the dashboard and everyone else to the
   * marketplace. The name field takes no part. The browser's own check of the
   * email box's format, which can stop the submission before the handler
   * runs, is not part of this model.
   */
  function Submit(email: string, password: string, isLogin: bool, role: Role): (o: Outcome)
    ensures o.Rejected? <==> (email == "" || password == "")
    ensures o.Rejected? ==> o.error == "Please fill all fields"
    ensures o.Accepted? ==> (o.noticeKey == "auth.loginSuccess" <==> isLogin)
    ensures o.Accepted? ==> (o.noticeKey == "auth.registerSuccess" <==> !isLogin)
    ensures o.Accepted? ==> o.target in AppRoutes.Routes && (o.target == "/dashboard" <==> role == Farmer)
  {
    if email == "" || password == "" then Rejected("Please fill all fields")
    else Accepted(if isLogin then "auth.loginSuccess" else "auth.registerSuccess",
                  if role == Farmer then "/dashboard" else "/marketplace")
  }

  /** Whether a submission is accepted does not depend on the mode or the role, only on the two fields being filled. */
  lemma AcceptanceIgnoresModeAndRole(email: string, password: string, isLogin: bool, role: Role, isLogin': bool, role': Role)
    ensures Submit(email, password, isLogin, role).Accepted? == Submit(email, password, isLogin', role').Accepted?
  {
  }

  /** A feature line of the side panel: its translation key and its text when the key is missing. */
  datatype Feature = Feature(key: string, fallback: string)

  const FarmerFeatures: seq<Feature> := [
    Feature("login.farmerFeature1", "List your produce"),
    Feature("login.farmerFeature2", "Track revenue & analytics"),
    Feature("login.farmerFeature3", "Join farmer community"),
    Feature("login.farmerFeature4", "Monthly sales reports")
  ]

  const BuyerFeatures: seq<Feature> := [
    Feature("login.buyerFeature1", "Buy fresh produce directly"),
    Feature("login.buyerFeature2", "Best prices from farmers"),
    Feature("login.buyerFeature3", "Track your orders"),
    Feature("login.buyerFeature4", "Trusted seller network")
  ]

  /** `features`: four lines, the farmer's exactly when the role is farmer. */
  function Features(role: Role): (fs: seq<Feature>)
    ensures |fs| == 4
    ensures fs == FarmerFeatures <==> role == Farmer
    ensures fs == BuyerFeatures <==> role == Buyer
  {
    assert FarmerFeatures != BuyerFeatures by {
      assert FarmerFeatures[0] != BuyerFeatures[0];
    }
    match role
    case Farmer => FarmerFeatures
    case Buyer => BuyerFeatures
  }

  /** The page's state: the mode and the three fields. */
  class LoginPage {
    var isLogin: bool
    var email: string
    var password: string
    var name: string

    constructor (param: Option<string>)
      ensures isLogin == StartsInLogin(ModeOf(param))
      ensures email == "" && password == "" && name == ""
    {
      isLogin := StartsInLogin(ModeOf(param));
      email, password, name := "", "", "";
    }

    method SetEmail(v: string)
      modifies this`email
      ensures email == v
    {
      email := v;
    }

    method SetPassword(v: string)
      modifies this`password
      ensures password == v
    {
      password := v;
    }

    method SetName(v: string)
      modifies this`name
      ensures name == v
    {
      name := v;
    }

    /** The switch link flips between login and register. */
    method ToggleMode()
      modifies this`isLogin
      ensures isLogin == !old(isLogin)
    {
      isLogin := !isLogin;
    }

    /** Submitting reads the fields, the mode and the current role, and changes none of them. */
    method HandleSubmit(role: Role) returns (o: Outcome)
      ensures o == Submit(email, password, isLogin, role)
    {
      o := Submit(email, password, isLogin, role);
    }
  }
}
