/** The bottom navigation bar: its five tabs and which of them is highlighted for a path. */
module BottomNav {
  import Text

  /** A tab: where it links, its caption, and whether only its own path highlights it. */
  datatype NavItem = NavItem(href: string, name: string, exact: bool)

  const Home: NavItem := NavItem("/", "Home", true)
  const Add: NavItem := NavItem("/add", "Add", false)
  const Reminders: NavItem := NavItem("/reminders", "Reminders", false)
  const Guides: NavItem := NavItem("/guides", "Guides", false)
  const Settings: NavItem := NavItem("/settings", "Settings", false)

  /** `navItems`, in the order the bar shows them. */
  const NavItems: seq<NavItem> := [Home, Add, Reminders, Guides, Settings]

  /** `isActive`: an exact tab needs its own path, any other tab a path that starts with its link. */
  predicate IsActive(pathname: string, item: NavItem) {
    if item.exact then pathname == item.href else Text.StartsWith(pathname, item.href)
  }

  /** A tab that is not exact stays highlighted on every path below its link. */
  lemma ActiveBelowLink(item: NavItem, rest: string)
    requires !item.exact
    ensures IsActive(item.href + rest, item)
  {
    assert (item.href + rest)[..|item.href|] == item.href;
  }

  /** An exact tab is highlighted on no path but its own. */
  lemma ExactOnlyOnOwnPath(item: NavItem, pathname: string)
    requires item.exact && pathname != item.href
    ensures !IsActive(pathname, item)
  {
  }

  /** Home is highlighted on "/" and on no other path, "/add" included. */
  lemma HomeOnlyOnRoot(pathname: string)
    ensures IsActive(pathname, Home) <==> pathname == "/"
    ensures !IsActive("/add", Home)
  {
  }

  /** Prefix matching highlights Add on any path that begins with "/add", "/address" among them. */
  lemma AddActiveOnAddress()
    ensures IsActive("/address", Add)
  {
    ActiveBelowLink(Add, "ress");
    assert Add.href + "ress" == "/address";
  }

  /** The second character of every link but Home's, which tells them apart. */
  lemma LinkLetters()
    ensures forall k :: 1 <= k < |NavItems| ==> |NavItems[k].href| >= 2 && NavItems[k].href[1] == "?argsh"[k]
    ensures forall k :: 1 <= k < |NavItems| ==> !NavItems[k].exact
    ensures NavItems[0] == Home
  {
  }

  /** No path highlights two tabs at once. */
  lemma AtMostOneActive(pathname: string)
    ensures forall i, j :: 0 <= i < j < |NavItems| ==> !(IsActive(pathname, NavItems[i]) && IsActive(pathname, NavItems[j]))
  {
    LinkLetters();
    forall i, j | 0 <= i < j < |NavItems| && IsActive(pathname, NavItems[i])
      ensures !IsActive(pathname, NavItems[j])
    {
      var hj := NavItems[j].href;
      if i == 0 {
        assert pathname == "/";
        assert |pathname| < |hj|;
      } else {
        var hi := NavItems[i].href;
        assert pathname[1] == hi[1];
        assert hi[1] != hj[1];
      }
    }
  }

  /** The root path highlights Home and nothing else. */
  lemma RootHighlightsHome()
    ensures forall k :: 0 <= k < |NavItems| ==> (IsActive("/", NavItems[k]) <==> k == 0)
  {
    LinkLetters();
  }
}
