/** The page header: the five navigation links, the exact-path active-link test, the
    mobile-menu flag, and the choice of authentication controls. */
module Header {
  import opened Wrappers
  import opened Seqs

  datatype NavLink = NavLink(href: string, caption: string)

  const NavLinks: seq<NavLink> := [
    NavLink("/", "HOME"),
    NavLink("/features", "FEATURES"),
    NavLink("/dashboard", "DASHBOARD"),
    NavLink("/documentation", "DOCUMENTATION"),
    NavLink("/contact", "CONTACT")
  ]

  /** `isActive`: a link is highlighted iff the current path equals its target exactly. */
  predicate IsActive(pathname: string, path: string) {
    pathname == path
  }

  function ActiveFor(pathname: string): NavLink -> bool {
    (l: NavLink) => IsActive(pathname, l.href)
  }

  /** The highlighted navigation links for a path. */
  function ActiveLinks(pathname: string): seq<NavLink> {
    Filter(NavLinks, ActiveFor(pathname))
  }

  /** The navigation targets are pairwise distinct. */
  lemma NavTargetsDistinct()
    ensures forall i, j :: 0 <= i < j < |NavLinks| ==> NavLinks[i].href != NavLinks[j].href
  {
  }

  /** At most one link is highlighted, and one is iff the path is a navigation target. */
  lemma AtMostOneActive(pathname: string)
    ensures |ActiveLinks(pathname)| <= 1
    ensures |ActiveLinks(pathname)| == 1 <==> exists i :: 0 <= i < |NavLinks| && NavLinks[i].href == pathname
  {
    NavTargetsDistinct();
    FilterAtMostOne(NavLinks, ActiveFor(pathname));
    FilterEmpty(NavLinks, ActiveFor(pathname));
  }

  /** A detail page's path highlights no navigation link. */
  lemma DetailPathHighlightsNothing(id: string)
    ensures ActiveLinks("/environment/" + id) == []
  {
    var p := "/environment/" + id;
    assert p[1] == 'e' && |p| >= 13 && p[2] == 'n';
    FilterNone(NavLinks, ActiveFor(p));
  }

  /** The member profile held by the identity service. */
  datatype Profile = Profile(nickname: Option<string>)
  datatype Member = Member(profile: Option<Profile>)

  /** `member?.profile?.nickname`. */
  function Nickname(member: Option<Member>): (r: Option<string>)
    ensures member.None? || member.value.profile.None? ==> r.None?
    ensures member.Some? && member.value.profile.Some? ==> r == member.value.profile.value.nickname
  {
    if member.Some? && member.value.profile.Some? then member.value.profile.value.nickname else None
  }

  /** The profile link's label: the nickname, or "PROFILE" when it is absent or empty. */
  function ProfileLabel(member: Option<Member>): (caption: string)
    ensures caption != ""
    ensures Truthy(Nickname(member)) ==> caption == Nickname(member).value
    ensures !Truthy(Nickname(member)) ==> caption == "PROFILE"
  {
    Or(Nickname(member), "PROFILE")
  }

  /** What the authentication region shows. */
  datatype AuthControls = Placeholder | ProfileAndSignOut(caption: string) | SignIn

  /** The authentication region, in priority order: loading, then signed in, then signed out. */
  function AuthRegion(isLoading: bool, isAuthenticated: bool, member: Option<Member>): (c: AuthControls)
    ensures c.Placeholder? <==> isLoading
    ensures c.ProfileAndSignOut? <==> !isLoading && isAuthenticated
    ensures c.SignIn? <==> !isLoading && !isAuthenticated
    ensures c.ProfileAndSignOut? ==> c.caption == ProfileLabel(member)
  {
    if isLoading then Placeholder
    else if isAuthenticated then ProfileAndSignOut(ProfileLabel(member))
    else SignIn
  }

  /** A request made to the identity service. */
  datatype AuthAction = Login | Logout

  /** The header's state; `authRequests` records the calls to the identity service's actions. */
  class HeaderState {
    var mobileMenuOpen: bool
    var authRequests: seq<AuthAction>

    constructor ()
      ensures !mobileMenuOpen && authRequests == []
    {
      mobileMenuOpen := false;
      authRequests := [];
    }

    /** The menu button flips the menu. */
    method ToggleMenu()
      modifies this`mobileMenuOpen
      ensures mobileMenuOpen == !old(mobileMenuOpen)
    {
      mobileMenuOpen := !mobileMenuOpen;
    }

    /** A link in the open mobile menu (a navigation link or the profile link) closes it. */
    method MobileLinkClick()
      requires mobileMenuOpen
      modifies this`mobileMenuOpen
      ensures !mobileMenuOpen
    {
      mobileMenuOpen := false;
    }

    /** Mobile sign-in asks the identity service to log in and closes the menu. */
    method MobileSignIn()
      requires mobileMenuOpen
      modifies this
      ensures !mobileMenuOpen && authRequests == old(authRequests) + [Login]
    {
      authRequests := authRequests + [Login];
      mobileMenuOpen := false;
    }

    /** Mobile sign-out asks the identity service to log out and closes the menu. */
    method MobileSignOut()
      requires mobileMenuOpen
      modifies this
      ensures !mobileMenuOpen && authRequests == old(authRequests) + [Logout]
    {
      authRequests := authRequests + [Logout];
      mobileMenuOpen := false;
    }

    /** The desktop buttons call the identity service and leave the menu as it is. */
    method DesktopAuth(action: AuthAction)
      modifies this`authRequests
      ensures authRequests == old(authRequests) + [action]
    {
      authRequests := authRequests + [action];
    }
  }
}
