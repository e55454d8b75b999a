/** The admin sidebar's menu (components/admin-sidebar.tsx): which items a role sees and which is highlighted. */
module AdminSidebar {
  import opened Common
  import opened AuthContext

  datatype MenuItem = MenuItem(title: string, url: string)

  /** `adminMenuItems`, in display order. */
  const AdminMenuItems: seq<MenuItem> := [
    MenuItem("Dashboard", "/resumen"),
    MenuItem("My Events", "/my-events"),
    MenuItem("Create Event", "/eventos"),
    MenuItem("Attendees", "/asistentes"),
    MenuItem("Scanner", "/escaner"),
    MenuItem("Analytics", "/analiticas"),
    MenuItem("Registration", "/registro")
  ]

  /** The titles only an admin sees. */
  const AdminOnlyTitles: seq<string> := ["Create Event", "Analytics", "Registration"]

  predicate ForEveryone(item: MenuItem) {
    item.title !in AdminOnlyTitles
  }

  /**
   * `menuItems` over a given list: everything for an admin; for anyone
   * else exactly the items that are not admin-only, in their order.
   */
  function VisibleItems(all: seq<MenuItem>, isAdmin: bool): (items: seq<MenuItem>)
    ensures isAdmin ==> items == all
    ensures !isAdmin ==>
      (forall k :: 0 <= k < |items| ==> ForEveryone(items[k])) &&
      (forall k :: 0 <= k < |all| && ForEveryone(all[k]) ==> all[k] in items)
    ensures Subsequence(items, all)
  {
    if isAdmin then
      SubsequenceOfSelf(all);
      all
    else
      FilterIsSubsequence(all, ForEveryone);
      Filter(all, ForEveryone)
  }

  function MenuItems(userRole: Option<string>): seq<MenuItem> {
    VisibleItems(AdminMenuItems, HasAnyRole(userRole, ["admin"]))
  }

  /** An admin-only title and any other differ in their second letter. */
  lemma NotAdminOnly(title: string)
    requires |title| > 1 && title[1] != 'r' && title[1] != 'n' && title[1] != 'e'
    ensures title !in AdminOnlyTitles
  {
    assert forall k :: 0 <= k < |AdminOnlyTitles| ==> AdminOnlyTitles[k][1] in {'r', 'n', 'e'};
  }

  /** An admin sees all seven items; anyone else the four that are not admin-only. */
  lemma MenuSizes(userRole: Option<string>)
    ensures HasAnyRole(userRole, ["admin"]) ==> |MenuItems(userRole)| == 7
    ensures !HasAnyRole(userRole, ["admin"]) ==> (MenuItems(userRole) ==
      [MenuItem("Dashboard", "/resumen"), MenuItem("My Events", "/my-events"),
       MenuItem("Attendees", "/asistentes"), MenuItem("Scanner", "/escaner")])
  {
    if !HasAnyRole(userRole, ["admin"]) {
      EveryoneMenu();
    }
  }

  lemma EveryoneMenu()
    ensures Filter(AdminMenuItems, ForEveryone) ==
      [AdminMenuItems[0], AdminMenuItems[1], AdminMenuItems[3], AdminMenuItems[4]]
    ensures Filter(AdminMenuItems, ForEveryone) ==
      [MenuItem("Dashboard", "/resumen"), MenuItem("My Events", "/my-events"),
       MenuItem("Attendees", "/asistentes"), MenuItem("Scanner", "/escaner")]
  {
    var s := AdminMenuItems;
    NotAdminOnly(s[0].title);
    NotAdminOnly(s[1].title);
    NotAdminOnly(s[3].title);
    NotAdminOnly(s[4].title);
    assert s[2].title == AdminOnlyTitles[0] && s[5].title == AdminOnlyTitles[1] && s[6].title == AdminOnlyTitles[2];
    FilterSeven(s, ForEveryone);
  }

  /** Filtering seven items of which the third, sixth and seventh fail the test. */
  lemma {:induction false} FilterSeven<T>(s: seq<T>, p: T -> bool)
    requires |s| == 7
    requires p(s[0]) && p(s[1]) && p(s[3]) && p(s[4])
    requires !p(s[2]) && !p(s[5]) && !p(s[6])
    ensures Filter(s, p) == [s[0], s[1], s[3], s[4]]
  {
    var front, back := s[..4], s[4..];
    FilterFirstFour(front, p);
    FilterLastThree(back, p);
    assert s == front + back;
    FilterAppend(front, back, p);
    assert front[0] == s[0] && front[1] == s[1] && front[3] == s[3] && back[0] == s[4];
    assert [front[0], front[1], front[3]] + [back[0]] == [s[0], s[1], s[3], s[4]];
  }

  /** Filtering four items of which only the third fails. */
  lemma {:induction false} FilterFirstFour<T>(s: seq<T>, p: T -> bool)
    requires |s| == 4 && p(s[0]) && p(s[1]) && !p(s[2]) && p(s[3])
    ensures Filter(s, p) == [s[0], s[1], s[3]]
  {
    assert s == [s[0]] + ([s[1]] + ([s[2]] + ([s[3]] + [])));
    FilterCons(s[3], [], p);
    FilterCons(s[2], [s[3]] + [], p);
    FilterCons(s[1], [s[2]] + ([s[3]] + []), p);
    FilterCons(s[0], [s[1]] + ([s[2]] + ([s[3]] + [])), p);
  }

  /** Filtering three items of which only the first passes. */
  lemma {:induction false} FilterLastThree<T>(s: seq<T>, p: T -> bool)
    requires |s| == 3 && p(s[0]) && !p(s[1]) && !p(s[2])
    ensures Filter(s, p) == [s[0]]
  {
    assert s == [s[0]] + ([s[1]] + ([s[2]] + []));
    FilterCons(s[2], [], p);
    FilterCons(s[1], [s[2]] + [], p);
    FilterCons(s[0], [s[1]] + ([s[2]] + []), p);
  }

  /** `isActive={pathname === item.url}`. */
  predicate IsActive(pathname: string, item: MenuItem) {
    pathname == item.url
  }

  predicate DistinctUrls(items: seq<MenuItem>) {
    forall i, j :: 0 <= i < j < |items| ==> items[i].url != items[j].url
  }

  /** Four items picked in increasing positions from a list with distinct urls have distinct urls. */
  lemma PickedUrlsDistinct(s: seq<MenuItem>, a: nat, b: nat, c: nat, d: nat)
    requires DistinctUrls(s) && a < b < c < d < |s|
    ensures DistinctUrls([s[a], s[b], s[c], s[d]])
  {
    var t := [s[a], s[b], s[c], s[d]];
    var idx := [a, b, c, d];
    forall i, j | 0 <= i < j < |t|
      ensures t[i].url != t[j].url
    {
      assert t[i] == s[idx[i]] && t[j] == s[idx[j]];
    }
  }

  /** The menu's urls are distinct. */
  lemma AdminUrlsDistinct()
    ensures DistinctUrls(AdminMenuItems)
  {
  }

  /**
   * Whatever the role, the menu's urls are distinct, so at most one item
   * is highlighted.
   */
  lemma AtMostOneActive(pathname: string, userRole: Option<string>)
    ensures var items := MenuItems(userRole);
      forall i, j :: 0 <= i < j < |items| ==> !(IsActive(pathname, items[i]) && IsActive(pathname, items[j]))
  {
    AdminUrlsDistinct();
    var s := AdminMenuItems;
    var items := MenuItems(userRole);
    if !HasAnyRole(userRole, ["admin"]) {
      EveryoneMenu();
      PickedUrlsDistinct(s, 0, 1, 3, 4);
    }
    assert DistinctUrls(items);
  }
}
