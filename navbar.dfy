/** The top navigation bar: the role's links, the active-link test, the cart link and its badge, and the mobile menu toggle. */
module Navbar {
  import AppRoutes

  /** A navigation entry: its target path and the translation key of its label. */
  datatype NavLink = NavLink(to: string, labelKey: string)

  const FarmerLinks: seq<NavLink> := [
    NavLink("/", "nav.home"),
    NavLink("/dashboard", "nav.dashboard"),
    NavLink("/marketplace", "nav.marketplace"),
    NavLink("/community", "nav.community"),
    NavLink("/orders", "nav.orders")
  ]

  const BuyerLinks: seq<NavLink> := [
    NavLink("/", "nav.home"),
    NavLink("/marketplace", "nav.marketplace"),
    NavLink("/orders", "nav.orders")
  ]

  /** Where the login and register buttons lead: role selection, with the mode in the query. */
  const LoginLink: string := "/select-role?mode=login"
  const RegisterLink: string := "/select-role?mode=signup"

  /** The target paths of a list of links. */
  function Targets(ls: seq<NavLink>): (ts: seq<string>)
    ensures |ts| == |ls| && forall i :: 0 <= i < |ls| ==> ts[i] == ls[i].to
  {
    seq(|ls|, i requires 0 <= i < |ls| => ls[i].to)
  }

  /** `links`: a farmer gets five links and a buyer three, every one a declared route, home first. */
  function Links(isFarmer: bool): (ls: seq<NavLink>)
    ensures |ls| == if isFarmer then 5 else 3
    ensures ls[0] == NavLink("/", "nav.home")
    ensures forall i :: 0 <= i < |ls| ==> ls[i].to in AppRoutes.Routes
  {
    if isFarmer then FarmerLinks else BuyerLinks
  }

  /** `a` can be obtained from `b` by deleting entries, without reordering. */
  predicate SubsequenceOf<T(==)>(a: seq<T>, b: seq<T>)
    decreases |b|
  {
    if a == [] then true
    else if b == [] then false
    else if a[0] == b[0] then SubsequenceOf(a[1..], b[1..])
    else SubsequenceOf(a, b[1..])
  }

  /** A subsequence keeps only entries of the longer list. */
  lemma {:induction false} SubsequenceMembers<T>(a: seq<T>, b: seq<T>)
    requires SubsequenceOf(a, b)
    ensures forall i :: 0 <= i < |a| ==> a[i] in b
    decreases |b|
  {
    if a != [] && b != [] {
      if a[0] == b[0] {
        SubsequenceMembers(a[1..], b[1..]);
        forall i | 0 <= i < |a|
          ensures a[i] in b
        {
          if i > 0 {
            assert a[i] == a[1..][i - 1];
          }
        }
      } else {
        SubsequenceMembers(a, b[1..]);
      }
    }
  }

  /** The buyer's links are the farmer's links with some removed, in the same order and with the same labels. */
  lemma BuyerLinksAreSubsequence()
    ensures SubsequenceOf(BuyerLinks, FarmerLinks)
    ensures forall i :: 0 <= i < |BuyerLinks| ==> BuyerLinks[i] in FarmerLinks
  {
    var f, b := FarmerLinks, BuyerLinks;
    assert b[1..] == [f[2], f[4]] && f[1..][1..] == f[2..];
    assert SubsequenceOf([f[4]], f[3..]) by {
      assert f[3..][1..] == [f[4]];
    }
    assert SubsequenceOf(b[1..], f[1..]) by {
      assert f[2..][1..] == f[3..] && b[1..][1..] == [f[4]];
    }
    SubsequenceMembers(b, f);
  }

  /** The dashboard and the community page are linked for a farmer and never for a buyer. */
  lemma FarmerOnlyLinks(isFarmer: bool)
    ensures "/dashboard" in Targets(Links(isFarmer)) <==> isFarmer
    ensures "/community" in Targets(Links(isFarmer)) <==> isFarmer
    ensures "/marketplace" in Targets(Links(isFarmer)) && "/orders" in Targets(Links(isFarmer))
  {
    var ts := Targets(Links(isFarmer));
    if isFarmer {
      assert ts[1] == "/dashboard" && ts[3] == "/community";
      assert ts[2] == "/marketplace" && ts[4] == "/orders";
    } else {
      assert ts == ["/", "/marketplace", "/orders"];
    }
  }

  /** `isActive`: a link is highlighted when its path is the current pathname. */
  predicate IsActive(pathname: string, path: string) {
    pathname == path
  }

  /** No two links of either list share a path, so at most one link is highlighted at a time. */
  lemma AtMostOneActive(isFarmer: bool, pathname: string)
    ensures var ls := Links(isFarmer);
      forall i, j ::
        (0 <= i < |ls| && 0 <= j < |ls| && IsActive(pathname, ls[i].to) && IsActive(pathname, ls[j].to)) ==> i == j
  {
  }

  /** The cart link is shown on every page except the landing page: exactly where the home link is not the active one. */
  function CartLinkShown(pathname: string): (shown: bool)
    ensures shown <==> !IsActive(pathname, Links(false)[0].to)
    ensures shown <==> !IsActive(pathname, Links(true)[0].to)
  {
    pathname != "/"
  }

  /**
   * The count badge sits on the cart link, so it is never shown without the
   * link; where the link is shown, the badge is shown exactly for a non-empty
   * cart.
   */
  function CartBadgeShown(pathname: string, totalItems: int): (shown: bool)
    ensures shown ==> CartLinkShown(pathname)
    ensures CartLinkShown(pathname) ==> (shown <==> totalItems > 0)
  {
    CartLinkShown(pathname) && totalItems > 0
  }

  /** On the landing page there is never a badge, whatever the cart holds; elsewhere there is one exactly when the cart has items. */
  lemma BadgeVisibility(pathname: string, totalItems: int)
    ensures pathname == "/" ==> !CartBadgeShown(pathname, totalItems)
    ensures pathname != "/" ==> (CartBadgeShown(pathname, totalItems) <==> totalItems > 0)
  {
  }

  /** The bar's own state: whether the mobile menu is open. */
  class NavbarState {
    var mobileOpen: bool

    constructor ()
      ensures !mobileOpen
    {
      mobileOpen := false;
    }

    /** The menu button flips the mobile menu. */
    method ToggleMobile()
      modifies this
      ensures mobileOpen == !old(mobileOpen)
    {
      mobileOpen := !mobileOpen;
    }
  }
}
