/** The admin tab bar (src/pages/admin/AdminDashboard.tsx): which tab is
    highlighted for the current path. */
module AdminDashboard {
  import opened Strings

  datatype Tab = Tab(path: string, title: string, exact: bool)

  const Tabs: seq<Tab> := [
    Tab("/admin", "Overview", true),
    Tab("/admin/customers", "Customers", false),
    Tab("/admin/plans", "Plans", false),
    Tab("/admin/services", "Services", false),
    Tab("/admin/content", "Content", false)
  ]

  /** An exact tab is active on its own path only; any other tab on every
      path that starts with its path. Either way an active tab's path is a
      prefix of the current path. */
  predicate IsActive(tab: Tab, pathname: string)
    ensures IsActive(tab, pathname) ==> StartsWith(pathname, tab.path)
  {
    if tab.exact then pathname == tab.path else StartsWith(pathname, tab.path)
  }

  /** `tabs.map(...)`: the highlight of each tab, in the fixed order. */
  function ActiveFlags(pathname: string): (flags: seq<bool>)
    ensures |flags| == |Tabs|
    ensures forall i :: 0 <= i < |Tabs| ==> flags[i] == IsActive(Tabs[i], pathname)
  {
    seq(|Tabs|, i requires 0 <= i < |Tabs| => IsActive(Tabs[i], pathname))
  }

  /** The tabs are Overview, Customers, Plans, Services, Content, and only
      Overview is exact. */
  lemma TabOrder()
    ensures |Tabs| == 5
    ensures Tabs[0].title == "Overview" && Tabs[1].title == "Customers" && Tabs[2].title == "Plans"
            && Tabs[3].title == "Services" && Tabs[4].title == "Content"
    ensures forall i :: 0 <= i < |Tabs| ==> (Tabs[i].exact <==> i == 0)
  {
  }

  /** Overview is active exactly on "/admin"; so on "/admin/customers/42"
      it is not, although "/admin" is a prefix, while Customers is. */
  lemma OverviewOnlyOnItsOwnPath(pathname: string)
    ensures IsActive(Tabs[0], pathname) <==> pathname == "/admin"
    ensures !IsActive(Tabs[0], "/admin/customers/42") && IsActive(Tabs[1], "/admin/customers/42")
  {
    assert "/admin/customers/42"[..|"/admin/customers"|] == "/admin/customers";
  }

  /** An active section tab pins down the path: it has more than nine
      characters, and its eighth and ninth are those of the tab's path. */
  lemma ActiveTabFixesPath(pathname: string, i: int)
    requires 0 <= i < |Tabs|
    ensures IsActive(Tabs[i], pathname) ==>
              if i == 0 then pathname == "/admin"
              else |pathname| > 9 && pathname[7] == Tabs[i].path[7] && pathname[8] == Tabs[i].path[8]
  {
    if i > 0 && IsActive(Tabs[i], pathname) {
      var p := Tabs[i].path;
      assert |p| > 9;
      assert pathname[7] == pathname[..|p|][7] == p[7];
      assert pathname[8] == pathname[..|p|][8] == p[8];
    }
  }

  /** At most one tab is active for any path: no section path is a prefix
      of another, and "/admin" itself starts none of them. */
  lemma AtMostOneActive(pathname: string)
    ensures forall i, j :: 0 <= i < j < |Tabs| && IsActive(Tabs[i], pathname) ==> !IsActive(Tabs[j], pathname)
  {
    forall i, j | 0 <= i < j < |Tabs| && IsActive(Tabs[i], pathname)
      ensures !IsActive(Tabs[j], pathname)
    {
      ActiveTabFixesPath(pathname, i);
      ActiveTabFixesPath(pathname, j);
    }
  }
}
