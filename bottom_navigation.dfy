/** The mobile bottom navigation bar: its items and which one is highlighted. */
module BottomNavigation {

  datatype Icon = BookOpen | PenTool | Calendar | Mic | User

  datatype NavItem = NavItem(icon: Icon, name: string, path: string)

  /**
   * `navItems`: Library, Write, Daily and Recite, then Profile for a
   * signed-in user or Sign In for anyone else.
   */
  function NavItems(signedIn: bool): (r: seq<NavItem>)
    ensures |r| == 5
    ensures r[..4] == [NavItem(BookOpen, "Library", "/library"), NavItem(PenTool, "Write", "/write"),
                       NavItem(Calendar, "Daily", "/daily"), NavItem(Mic, "Recite", "/recite")]
    ensures signedIn ==> r[4] == NavItem(User, "Profile", "/profile")
    ensures !signedIn ==> r[4] == NavItem(User, "Sign In", "/login")
  {
    [NavItem(BookOpen, "Library", "/library"),
     NavItem(PenTool, "Write", "/write"),
     NavItem(Calendar, "Daily", "/daily"),
     NavItem(Mic, "Recite", "/recite"),
     if signedIn then NavItem(User, "Profile", "/profile") else NavItem(User, "Sign In", "/login")]
  }

  /** `location.pathname === item.path`: an exact match, so "/write/123" highlights nothing. */
  predicate IsActive(item: NavItem, pathname: string) {
    pathname == item.path
  }

  /** No two items share a path. */
  lemma PathsDistinct(signedIn: bool)
    ensures var r := NavItems(signedIn);
      forall i, j :: 0 <= i < j < |r| ==> r[i].path != r[j].path
  {
    var r := NavItems(signedIn);
    forall i, j | 0 <= i < j < |r| ensures r[i].path != r[j].path {
      assert r[i].path[1] != r[j].path[1] || r[i].path[2] != r[j].path[2];
    }
  }

  /** Whatever the pathname, at most one item is highlighted. */
  lemma AtMostOneActive(signedIn: bool, pathname: string)
    ensures var r := NavItems(signedIn);
      forall i, j :: 0 <= i < |r| && 0 <= j < |r| && IsActive(r[i], pathname) && IsActive(r[j], pathname) ==> i == j
  {
    PathsDistinct(signedIn);
  }

  /** Some item is highlighted exactly when the pathname is one of the items' paths. */
  lemma SomeActiveIffListed(signedIn: bool, pathname: string)
    ensures var r := NavItems(signedIn);
      (exists i :: 0 <= i < |r| && IsActive(r[i], pathname)) <==> pathname in (set k | 0 <= k < |r| :: r[k].path)
  {
  }
}
