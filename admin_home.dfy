/** The administrator shell: which sidebar tabs a role sees, the page title
  * and search placeholder for the current path, and the role read from the
  * `users` table. */
module AdminHome {
  import opened Wrappers
  import opened Seqs
  import opened Users

  datatype Tab = Tab(name: string, url: string)

  const DashboardTab := Tab("Dashboard", "/admin/dashboard")
  const ProfilingTab := Tab("Profiling", "/admin/profiles")
  const HealthTab := Tab("Health Monitoring", "/admin/health")
  const EducationTab := Tab("Education And Training", "/admin/education")
  const CaseTab := Tab("Case Management", "/admin/case")
  const ReportsTab := Tab("Reports & Analytics", "/admin/reports")
  const UsersTab := Tab("User Management", "/admin/userManagement")

  /** The `roleTabs` record, in its declaration order. */
  const Roles: seq<string> := ["admin", "healthworker", "socialworker", "school"]

  /** `roleTabs[role]`, absent for any other key. */
  function RoleTabs(role: string): Option<seq<Tab>>
  {
    if role == "admin" then Some([DashboardTab, ProfilingTab, HealthTab, EducationTab, CaseTab, ReportsTab, UsersTab])
    else if role == "healthworker" then Some([DashboardTab, HealthTab, ProfilingTab])
    else if role == "socialworker" then Some([DashboardTab, CaseTab])
    else if role == "school" then Some([DashboardTab, EducationTab])
    else None
  }

  /** `tabsToRender`: the role's tabs, none for an absent, empty or unknown
    * role. */
  function TabsToRender(role: Option<string>): (tabs: seq<Tab>)
    ensures tabs != [] <==> role.Some? && role.value in Roles
    ensures tabs != [] ==> tabs[0] == DashboardTab
  {
    if role.Some? && role.value != "" then
      match RoleTabs(role.value)
      case Some(tabs) => tabs
      case None => []
    else []
  }

  /** Only administrators see User Management and Reports & Analytics. */
  lemma AdminOnlyTabs(role: Option<string>)
    ensures UsersTab in TabsToRender(role) <==> role == Some("admin")
    ensures ReportsTab in TabsToRender(role) <==> role == Some("admin")
  {
    if role.Some? && role.value in Roles && role.value != "admin" {
      assert TabsToRender(role)[0] == DashboardTab;
    }
  }

  /** `Object.values(roleTabs).flat()`. */
  function AllTabs(): seq<Tab>
  {
    RoleTabs("admin").value + RoleTabs("healthworker").value +
    RoleTabs("socialworker").value + RoleTabs("school").value
  }

  function UrlIs(path: string): Tab -> bool
  {
    (t: Tab) => t.url == path
  }

  /** `getCurrentTitle`: the name of the first tab with the path's url, or
    * `Dashboard`. */
  function CurrentTitle(path: string): (title: string)
    ensures (forall t :: t in AllTabs() ==> t.url != path) ==> title == "Dashboard"
    ensures title == "Dashboard" || exists t :: t in AllTabs() && t.url == path && t.name == title
  {
    match FindIndex(AllTabs(), UrlIs(path))
    case None => "Dashboard"
    case Some(i) => AllTabs()[i].name
  }

  /** Whichever role shows a tab, opening it titles the page with the tab's
    * name: no url is shared by two differently named tabs. */
  lemma TitleOfEveryTab(role: Option<string>, t: Tab)
    requires t in TabsToRender(role)
    ensures CurrentTitle(t.url) == t.name
  {
    RenderedTabIsAdminTab(role, t);
    var admin := RoleTabs("admin").value;
    var i :| 0 <= i < |admin| && admin[i] == t;
    TitleOfAdminTab(i);
  }

  /** Every tab any role sees is one of the administrator's. */
  lemma RenderedTabIsAdminTab(role: Option<string>, t: Tab)
    requires t in TabsToRender(role)
    ensures t in RoleTabs("admin").value
  {
  }

  /** The administrator's list comes first in `AllTabs` and gives every tab
    * its own url. */
  lemma TitleOfAdminTab(i: nat)
    requires i < 7
    ensures CurrentTitle(RoleTabs("admin").value[i].url) == RoleTabs("admin").value[i].name
  {
    var admin := RoleTabs("admin").value;
    var all := AllTabs();
    assert all[..7] == admin;
    AdminUrlsDistinct();
    var matches := UrlIs(admin[i].url);
    var f := FindIndex(all, matches);
    assert matches(all[i]);
    assert forall j :: 0 <= j < i ==> all[j] == admin[j] && !matches(all[j]);
    assert f == Some(i);
  }

  /** No two of the administrator's tabs share a url. */
  lemma AdminUrlsDistinct()
    ensures var admin := RoleTabs("admin").value;
            forall j, k :: 0 <= j < k < |admin| ==> admin[j].url != admin[k].url
  {
    var admin := RoleTabs("admin").value;
    forall j, k | 0 <= j < k < |admin|
      ensures admin[j].url != admin[k].url
    {
      // after "/admin/" each url starts with its own letter
      assert admin[j].url[7] == "dphecru"[j];
      assert admin[k].url[7] == "dphecru"[k];
    }
  }

  /** `getSearchPlaceholder`. */
  function SearchPlaceholder(path: string): (text: string)
    ensures text != "Search..." <==>
            path in {"/admin/profiles", "/admin/health", "/admin/education", "/admin/case", "/admin/userManagement"}
  {
    if path == "/admin/profiles" then "Search profiles..."
    else if path == "/admin/health" then "Search health records..."
    else if path == "/admin/education" then "Search education records..."
    else if path == "/admin/case" then "Search cases..."
    else if path == "/admin/userManagement" then "Search users..."
    else "Search..."
  }

  /** Every tab but Dashboard and Reports & Analytics has its own search
    * text. */
  lemma TabsWithSearch(t: Tab)
    requires t in AllTabs()
    ensures SearchPlaceholder(t.url) == "Search..." <==> t == DashboardTab || t == ReportsTab
  {
  }

  /** Row `k` is the first row of the `users` table with auth id `id`. */
  predicate FirstMatch(rows: seq<UserRow>, id: string, k: int)
  {
    0 <= k < |rows| && rows[k].auth_id == Some(id) &&
    forall j :: 0 <= j < k ==> rows[j].auth_id != Some(id)
  }

  /** `fetchProfiles(id)`: `None` when the id is empty (no lookup, the role
    * is left as it was), else the role of the first row with that auth id
    * (`data[0].role`), or `''` when the query fails or finds nothing. */
  function FetchedRole(rows: seq<UserRow>, id: string, fails: bool): (r: Option<Option<string>>)
    ensures r.None? <==> id == ""
    ensures r.Some? && r.value != Some("") ==>
              !fails && exists u :: u in rows && u.auth_id == Some(id) && u.role == r.value
    ensures forall k :: id != "" && !fails && FirstMatch(rows, id, k) ==> r == Some(rows[k].role)
    ensures id != "" && (fails || forall u :: u in rows ==> u.auth_id != Some(id)) ==> r == Some(Some(""))
  {
    if id == "" then None
    else
      var matches := Filter(rows, HasAuthId(id));
      if fails || matches == [] then
        assert forall k :: FirstMatch(rows, id, k) ==> rows[k] in matches;
        Some(Some(""))
      else
        FilterHead(rows, HasAuthId(id));
        assert matches[0] in matches;
        Some(matches[0].role)
  }

  /** A staff user, whose first `users` row carries one of the four roles,
    * sees exactly that role's tabs. */
  lemma StaffSeesRoleTabs(rows: seq<UserRow>, id: string, k: int)
    requires id != "" && FirstMatch(rows, id, k)
    requires rows[k].role.Some? && rows[k].role.value in Roles
    ensures TabsToRender(FetchedRole(rows, id, false).value) == RoleTabs(rows[k].role.value).value
  {
    assert FetchedRole(rows, id, false) == Some(rows[k].role);
  }

  /** A user without a matching row, or with a role outside the four staff
    * roles, sees no tabs. */
  lemma UnknownUserSeesNothing(rows: seq<UserRow>, id: string, fails: bool)
    requires id != ""
    requires fails || forall u :: u in rows && u.auth_id == Some(id) ==> u.role.None? || u.role.value !in Roles
    ensures TabsToRender(FetchedRole(rows, id, fails).value) == []
  {
    var matches := Filter(rows, HasAuthId(id));
    if !fails && matches != [] {
      assert matches[0] in matches;
    }
  }
}
