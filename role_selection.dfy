/** The role selection page: choosing farmer or buyer, then going on to the login page with the same mode. */
module RoleSelection {
  import opened Wrappers
  import opened UserRole
  import AppRoutes
  import Login
  import Navbar

  /** The login page's URL for a mode. */
  function LoginUrl(mode: string): (url: string)
    ensures AppRoutes.ModeParam(url, "/login").Some?
  {
    var url := "/login" + "?mode=" + mode;
    assert url[..|"/login" + "?mode="|] == "/login" + "?mode=";
    url
  }

  /** `handleSelect`: store the role, then go to the login page with the mode this page was given. */
  method HandleSelect(role: Role, param: Option<string>, provider: RoleProvider) returns (url: string)
    modifies provider
    ensures provider.role == role && provider.Valid()
    ensures provider.storage == old(provider.storage)[RoleKey := RoleName(role)]
    ensures url == LoginUrl(Login.ModeOf(param))
  {
    provider.SetRole(role);
    url := LoginUrl(Login.ModeOf(param));
  }

  /** A plain mode reaches the login page unchanged, so the login page opens in the mode the user asked for. */
  lemma ModeCarriedThrough(param: Option<string>)
    requires AppRoutes.PlainValue(Login.ModeOf(param))
    ensures Login.ModeOf(AppRoutes.ModeParam(LoginUrl(Login.ModeOf(param)), "/login")) == Login.ModeOf(param)
  {
    AppRoutes.ModeRoundTrip("/login", Login.ModeOf(param));
  }

  /** The register button, through role selection, opens the login page in register mode. */
  lemma RegisterButtonOpensRegister()
    ensures var m := Login.ModeOf(AppRoutes.ModeParam(Navbar.RegisterLink, "/select-role"));
      !Login.StartsInLogin(Login.ModeOf(AppRoutes.ModeParam(LoginUrl(m), "/login")))
  {
    assert Navbar.RegisterLink == "/select-role" + "?mode=" + "signup";
    AppRoutes.ModeRoundTrip("/select-role", "signup");
    assert LoginUrl("signup") == "/login" + "?mode=" + "signup";
    AppRoutes.ModeRoundTrip("/login", "signup");
  }

  /** The login button, through role selection, opens the login page in login mode. */
  lemma LoginButtonOpensLogin()
    ensures var m := Login.ModeOf(AppRoutes.ModeParam(Navbar.LoginLink, "/select-role"));
      Login.StartsInLogin(Login.ModeOf(AppRoutes.ModeParam(LoginUrl(m), "/login")))
  {
    assert Navbar.LoginLink == "/select-role" + "?mode=" + "login";
    AppRoutes.ModeRoundTrip("/select-role", "login");
    assert LoginUrl("login") == "/login" + "?mode=" + "login";
    AppRoutes.ModeRoundTrip("/login", "login");
  }
}
