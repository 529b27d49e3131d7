/**
 * The sidebar: the fixed navigation list, the role filter over it, the
 * Settings link shown to managers and the active-item test.
 *
 * The signed-in user is `Option<Role>`; `user?.role || ''` is the role's
 * stored string, or the empty string when nobody is signed in.
 */
module Sidebar {
  import opened Wrappers
  import opened Schema
  import opened Tables

  /** A link of the navigation list; `roles` absent means everybody sees it. */
  datatype NavItem = NavItem(name: string, href: string, roles: Option<seq<string>>)

  const Navigation: seq<NavItem> := [
    NavItem("Dashboard", "/", None),
    NavItem("Projects", "/projects", None),
    NavItem("Attendance", "/attendance", None),
    NavItem("Budget", "/budget", Some(["admin", "project_officer"])),
    NavItem("Reports", "/reports", Some(["admin", "project_officer"]))
  ]

  /** `user?.role || ''`. */
  function CurrentRole(user: Option<Role>): string {
    if user.Some? then RoleName(user.value) else ""
  }

  /** `item => !item.roles || item.roles.includes(role)`. */
  function ShownTo(role: string): NavItem -> bool {
    (item: NavItem) => item.roles.None? || role in item.roles.value
  }

  /** `navigation.filter(...)`: the links the user sees, in the list's order. */
  function FilteredNavigation(user: Option<Role>): (r: seq<NavItem>)
    ensures IsSubsequence(r, Navigation)
    ensures forall item :: item in r <==>
      (item in Navigation && (item.roles.None? || CurrentRole(user) in item.roles.value))
  {
    FilterIsSubsequence(Navigation, ShownTo(CurrentRole(user)));
    FilterMembers(Navigation, ShownTo(CurrentRole(user)));
    Filter(Navigation, ShownTo(CurrentRole(user)))
  }

  /** The role list of Budget and Reports admits exactly the managers. */
  lemma ManagerRoleStrings(user: Option<Role>)
    ensures CurrentRole(user) in ["admin", "project_officer"] <==> user.Some? && IsManager(user.value)
  {
    if user.Some? {
      match user.value
      case Admin =>
      case ProjectOfficer =>
      case Employee =>
        assert |CurrentRole(user)| == 8;
    } else {
      assert |CurrentRole(user)| == 0;
    }
  }

  /** Which links the filter keeps: the first three always, the last two for managers only. */
  lemma ShownToFacts(user: Option<Role>)
    ensures forall i :: 0 <= i < 3 ==> ShownTo(CurrentRole(user))(Navigation[i])
    ensures forall i :: 3 <= i < 5 ==>
      (ShownTo(CurrentRole(user))(Navigation[i]) <==> user.Some? && IsManager(user.value))
  {
    ManagerRoleStrings(user);
  }

  /** Filtering five rows of which the first three always pass and the last two pass together. */
  lemma FilterFiveItems<T(!new)>(n0: T, n1: T, n2: T, n3: T, n4: T, p: T -> bool)
    requires p(n0) && p(n1) && p(n2) && p(n3) == p(n4)
    ensures Filter([n0, n1, n2, n3, n4], p) == if p(n3) then [n0, n1, n2, n3, n4] else [n0, n1, n2]
  {
    var tail := Filter([n3, n4], p);
    assert tail == if p(n3) then [n3, n4] else [] by {
      FilterCons(n3, [n4], p);
      FilterCons(n4, [], p);
    }
    assert Filter([n2, n3, n4], p) == [n2] + tail by {
      FilterCons(n2, [n3, n4], p);
    }
    assert Filter([n1, n2, n3, n4], p) == [n1, n2] + tail by {
      FilterCons(n1, [n2, n3, n4], p);
    }
    assert Filter([n0, n1, n2, n3, n4], p) == [n0, n1, n2] + tail by {
      FilterCons(n0, [n1, n2, n3, n4], p);
    }
  }

  /** Managers see the whole list; an employee or nobody sees only the first three links. */
  lemma {:induction false} NavigationFor(user: Option<Role>)
    ensures user.Some? && IsManager(user.value) ==> FilteredNavigation(user) == Navigation
    ensures !(user.Some? && IsManager(user.value)) ==> FilteredNavigation(user) == Navigation[..3]
  {
    var p := ShownTo(CurrentRole(user));
    ShownToFacts(user);
    FilterFiveItems(Navigation[0], Navigation[1], Navigation[2], Navigation[3], Navigation[4], p);
    assert Navigation == [Navigation[0], Navigation[1], Navigation[2], Navigation[3], Navigation[4]];
    assert Navigation[..3] == [Navigation[0], Navigation[1], Navigation[2]];
  }

  /** A link without a role list is shown to everybody, signed in or not. */
  lemma UnrestrictedAlwaysShown(user: Option<Role>, i: nat)
    requires i < |Navigation| && Navigation[i].roles.None?
    ensures Navigation[i] in FilteredNavigation(user)
  {
  }

  /** Budget and Reports are shown exactly to admins and project officers. */
  lemma BudgetAndReportsForManagers(user: Option<Role>)
    ensures Navigation[3].name == "Budget" && Navigation[4].name == "Reports"
    ensures Navigation[3] in FilteredNavigation(user) <==> user.Some? && IsManager(user.value)
    ensures Navigation[4] in FilteredNavigation(user) <==> user.Some? && IsManager(user.value)
  {
    NavigationFor(user);
    NavigationHrefsDistinct();
    assert Navigation[3] !in Navigation[..3] && Navigation[4] !in Navigation[..3];
  }

  /** With nobody signed in only Dashboard, Projects and Attendance are shown. */
  lemma SignedOutSeesThree()
    ensures FilteredNavigation(None) == [Navigation[0], Navigation[1], Navigation[2]]
    ensures FilteredNavigation(None)[0].name == "Dashboard"
    ensures FilteredNavigation(None)[1].name == "Projects"
    ensures FilteredNavigation(None)[2].name == "Attendance"
  {
    NavigationFor(None);
  }

  /** `user?.role === ADMIN || user?.role === PROJECT_OFFICER`: whether the Settings link shows. */
  function ShowSettings(user: Option<Role>): (r: bool)
    ensures r <==> user.Some? && IsManager(user.value)
  {
    CurrentRole(user) == "admin" || CurrentRole(user) == "project_officer"
  }

  /** Settings appears together with the Budget link, for the same users. */
  lemma SettingsFollowsBudget(user: Option<Role>)
    ensures ShowSettings(user) <==> Navigation[3] in FilteredNavigation(user)
  {
    BudgetAndReportsForManagers(user);
  }

  /** `location === item.href`. */
  predicate IsActive(location: string, item: NavItem) {
    location == item.href
  }

  function Href(item: NavItem): string { item.href }

  /** No two links share an href: their lengths already differ. */
  lemma NavigationHrefsDistinct()
    ensures DistinctBy(Navigation, Href)
  {
    assert forall i :: 0 <= i < |Navigation| ==> |Href(Navigation[i])| == [1, 9, 11, 7, 8][i];
  }

  /** The shown links that are highlighted for the current location. */
  function ActiveItems(location: string, user: Option<Role>): (r: seq<NavItem>)
    ensures |r| <= 1
    ensures |r| == 1 <==> exists item :: item in FilteredNavigation(user) && IsActive(location, item)
    ensures forall item :: item in r ==> item in FilteredNavigation(user) && item.href == location
  {
    var shown := FilteredNavigation(user);
    var r := Filter(shown, (item: NavItem) => IsActive(location, item));
    FilterMembers(shown, (item: NavItem) => IsActive(location, item));
    NavigationHrefsDistinct();
    FilterKeepsDistinct(Navigation, ShownTo(CurrentRole(user)), Href);
    FilterKeepsDistinct(shown, (item: NavItem) => IsActive(location, item), Href);
    AtMostOneWithKey(r, Href, location);
    assert |r| == 1 <==> exists item :: item in shown && IsActive(location, item) by {
      if |r| == 1 {
        assert r[0] in r;
      }
    }
    r
  }
}
