/** The fields of the "my roles" listing (fv3/serializers/MyRolesSerializer.py):
  * which project a role gives access to, the role label shown on a region or
  * a site, a site's submission total, status and progress, and the
  * per-organization card with its project list and its `team_url`. */
module MyRolesSerializer {
  import opened Common

  /** `MyProjectSerializer.get_has_project_access`. */
  function HasProjectAccess(g: Group): (b: bool)
    ensures b <==> GroupName(g) in {"Project Manager", "Project Donor"}
  {
    g == ProjectManager || g == ProjectDonor
  }

  /** The label `get_role` shows: None, a group name, or the `.get()` on an
    * empty queryset raising `DoesNotExist`. */
  datatype RoleLabel = NoLabel | Label(name: string) | LabelFails

  /** `user.user_roles.all().filter(Q(PM, project) | Q(OA, organization))
    * .exists()`: ended roles count as well. */
  predicate ManagesScope(store: seq<Role>, user: int, project: int, org: int)
  {
    exists x :: x in store && x.user == user &&
      ((x.group == ProjectManager && x.project == Some(project)) ||
       (x.group == OrganizationAdmin && x.organization == Some(org)))
  }

  /** The rule both `get_role`s share: `inScope` selects the `region_roles`
    * or `site_roles` of the object, `many` is the label shown when the user
    * has more than one of them. */
  function ScopedLabel(store: seq<Role>, user: int, project: int, org: int,
                       inScope: Role -> bool, many: string): (r: RoleLabel)
    ensures r.NoLabel? <==> ManagesScope(store, user, project, org)
    ensures r.LabelFails? <==>
      !ManagesScope(store, user, project, org) && forall x :: x in store && x.user == user ==> !inScope(x)
    ensures r.Label? ==>
      r.name == many || exists x :: x in store && x.user == user && inScope(x) && GroupName(x.group) == r.name
  {
    if ManagesScope(store, user, project, org) then NoLabel
    else
      var rows := Where(store, (x: Role) => x.user == user && inScope(x));
      if |rows| > 1 then
        assert rows[0] in rows;
        Label(many)
      else if |rows| == 0 then LabelFails
      else
        assert rows[0] in rows;
        Label(GroupName(rows[0].group))
  }

  /** A user with exactly one role on the object, and no manager role above
    * it, sees that role's group name. */
  lemma SingleRoleShowsItsGroup(store: seq<Role>, user: int, project: int, org: int,
                                inScope: Role -> bool, many: string, i: int)
    requires !ManagesScope(store, user, project, org)
    requires 0 <= i < |store| && store[i].user == user && inScope(store[i])
    requires forall j :: 0 <= j < |store| && store[j].user == user && inScope(store[j]) ==> j == i
    ensures ScopedLabel(store, user, project, org, inScope, many) == Label(GroupName(store[i].group))
  {
    WhereSingle(store, (x: Role) => x.user == user && inScope(x), i);
  }

  /** Two roles on the object show the fixed label, whatever their groups:
    * two Reviewer roles on a site are shown as "Site Supervisor". */
  lemma TwoRolesShowFixedLabel(store: seq<Role>, user: int, project: int, org: int,
                               inScope: Role -> bool, many: string, i: int, j: int)
    requires !ManagesScope(store, user, project, org)
    requires 0 <= i < |store| && 0 <= j < |store| && i != j
    requires store[i].user == user && inScope(store[i]) && store[j].user == user && inScope(store[j])
    ensures ScopedLabel(store, user, project, org, inScope, many) == Label(many)
  {
    WhereTwo(store, (x: Role) => x.user == user && inScope(x), i, j);
  }

  /** `MyRegionSerializer.get_role`. */
  function RegionRole(h: Hierarchy, store: seq<Role>, user: int, region: int): (r: RoleLabel)
    requires Wf(h) && region in h.regions
    ensures r.NoLabel? <==>
      ManagesScope(store, user, h.regions[region].project, h.projects[h.regions[region].project].organization)
    ensures r.LabelFails? <==> !r.NoLabel? && forall x :: x in store && x.user == user ==> x.region != Some(region)
    ensures r.Label? ==> (r.name == "Region Supervisor" ||
      exists x :: x in store && x.user == user && x.region == Some(region) && GroupName(x.group) == r.name)
  {
    var p := h.regions[region].project;
    ScopedLabel(store, user, p, h.projects[p].organization, (x: Role) => x.region == Some(region), "Region Supervisor")
  }

  /** `MySiteSerializer.get_role`. */
  function SiteRole(h: Hierarchy, store: seq<Role>, user: int, site: int): (r: RoleLabel)
    requires Wf(h) && site in h.sites
    ensures r.NoLabel? <==>
      ManagesScope(store, user, h.sites[site].project, h.projects[h.sites[site].project].organization)
    ensures r.LabelFails? <==> !r.NoLabel? && forall x :: x in store && x.user == user ==> x.site != Some(site)
    ensures r.Label? ==> (r.name == "Site Supervisor" ||
      exists x :: x in store && x.user == user && x.site == Some(site) && GroupName(x.group) == r.name)
  {
    var p := h.sites[site].project;
    ScopedLabel(store, user, p, h.projects[p].organization, (x: Role) => x.site == Some(site), "Site Supervisor")
  }

  /** What `get_site_submission_count()` returns. */
  datatype SubmissionCount = SubmissionCount(outstanding: nat, flagged: nat, approved: nat, rejected: nat)

  /** `get_submissions`: every submission is in exactly one of the four
    * states, and all four are counted. */
  function Submissions(c: SubmissionCount): (r: nat)
    ensures r >= c.outstanding && r >= c.flagged && r >= c.approved && r >= c.rejected
    ensures r == 0 <==> c == SubmissionCount(0, 0, 0, 0)
  {
    c.outstanding + c.flagged + c.approved + c.rejected
  }

  /** FORM_STATUS. */
  function StatusName(code: int): (r: Option<string>)
    ensures r.Some? <==> 0 <= code <= 3
  {
    if code == 0 then Some("Pending")
    else if code == 1 then Some("Rejected")
    else if code == 2 then Some("Flagged")
    else if code == 3 then Some("Approved")
    else None
  }

  /** The code FORM_STATUS gives a name; the partner of `StatusName`. */
  function StatusCode(name: string): (r: Option<int>)
    ensures r.Some? ==> StatusName(r.value) == Some(name)
  {
    if name == "Pending" then Some(0)
    else if name == "Rejected" then Some(1)
    else if name == "Flagged" then Some(2)
    else if name == "Approved" then Some(3)
    else None
  }

  /** FORM_STATUS is one-to-one: a shown status names exactly one code. */
  lemma StatusNameRoundTrip(code: int)
    requires StatusName(code).Some?
    ensures StatusCode(StatusName(code).value) == Some(code)
  {
  }

  /** `get_status`: the status name when the site has submissions; None when
    * it has none (the method ends without a return) and when the code is
    * not in FORM_STATUS (the `KeyError` is swallowed). */
  function Status(hasInstances: bool, currentStatus: int): (r: Option<string>)
    ensures r.Some? <==> hasInstances && 0 <= currentStatus <= 3
    ensures r.Some? ==> StatusCode(r.value) == Some(currentStatus)
  {
    if hasInstances then StatusName(currentStatus) else None
  }

  /** `get_progress`. The falsy branch returns 0 only when the field is 0,
    * so the result is always the field. */
  function Progress(currentProgress: int): (r: int)
    ensures r == currentProgress
  {
    if currentProgress != 0 then currentProgress else 0
  }

  /** `get_has_organization_access`: `organization_id in user.user_roles
    * .filter(group__name="Organization Admin").values_list(...)`, with
    * `user` from the serializer context. */
  predicate HasOrganizationAccess(store: seq<Role>, contextUser: int, org: Option<int>)
  {
    exists x :: x in store && x.user == contextUser && x.group == OrganizationAdmin && x.organization == org
  }

  predicate ProjectActive(h: Hierarchy, p: Option<int>)
  {
    p.Some? && p.value in h.projects && h.projects[p.value].isActive
  }

  predicate SiteActive(h: Hierarchy, s: Option<int>)
  {
    s.Some? && s.value in h.sites && h.sites[s.value].isActive
  }

  predicate RegionActive(h: Hierarchy, g: Option<int>)
  {
    g.Some? && g.value in h.regions && h.regions[g.value].isActive
  }

  /** The `Q(...) | ...` filter of `get_projects`, by group name. A null
    * foreign key fails its `__is_active` join. */
  predicate NameFilter(h: Hierarchy, x: Role)
  {
    var n := GroupName(x.group);
    || (n == "Project Manager" && ProjectActive(h, x.project))
    || (n == "Site Supervisor" && SiteActive(h, x.site))
    || (n == "Site Reviewer" && SiteActive(h, x.site))
    || (n == "Region Reviewer" && RegionActive(h, x.region))
    || (n == "Region Supervisor" && RegionActive(h, x.region))
    || (n == "Project Donor" && ProjectActive(h, x.project))
  }

  /** The same filter by role kind. */
  predicate Listed(h: Hierarchy, x: Role)
  {
    || (x.group in {ProjectManager, ProjectDonor} && ProjectActive(h, x.project))
    || (x.group == SiteSupervisor && SiteActive(h, x.site))
    || (x.group in {RegionSupervisor, RegionReviewer} && RegionActive(h, x.region))
  }

  /** The two agree. No group is named "Site Reviewer", so that arm never
    * matches and a Reviewer's site roles never reach the project list. */
  lemma ListedIsTheNameFilter(h: Hierarchy, x: Role)
    ensures Listed(h, x) <==> NameFilter(h, x)
    ensures x.group == Reviewer ==> !NameFilter(h, x)
  {
    match x.group
    case SuperAdmin => {}
    case OrganizationAdmin => {}
    case ProjectManager => {}
    case SiteSupervisor => {}
    case Reviewer => {}
    case RegionSupervisor => {}
    case RegionReviewer => {}
    case ProjectDonor => {}
    case Unassigned => {}
    case StaffProjectManager => {}
  }

  /** Some row of `rows` is on project `p`. */
  predicate OnProject(rows: seq<Role>, p: Option<int>)
  {
    exists y :: y in rows && y.project == p
  }

  /** `.distinct('project')`: one row per project. PostgreSQL does not say
    * which row of a project it keeps; this model keeps the first. */
  function DistinctOnProject(rows: seq<Role>): (r: seq<Role>)
    ensures forall x :: x in r ==> x in rows
    ensures forall x :: x in rows ==> OnProject(r, x.project)
    ensures forall i, j :: 0 <= i < j < |r| ==> r[i].project != r[j].project
  {
    if rows == [] then []
    else
      var init := rows[..|rows| - 1];
      var rest := DistinctOnProject(init);
      var last := rows[|rows| - 1];
      assert rows == init + [last];
      assert forall x :: x in rows ==> x in init || x == last;
      if OnProject(rest, last.project) then rest
      else
        var r := rest + [last];
        assert forall i :: 0 <= i < |rest| ==> r[i] == rest[i] && r[i] in rest;
        assert r[|rest|] == last && last in r;
        assert forall y :: y in rest ==> y in r;
        r
  }

  /** One entry of the `projects` field: `id` is the project id (the role's
    * `project_id` in the non-admin branch). */
  datatype ProjectEntry = ProjectEntry(id: Option<int>, hasProjectAccess: bool)

  /** The Org Admin branch of `get_projects`: every active project of the
    * organization, in table order `projectOrder`, with access. */
  function AdminProjects(h: Hierarchy, projectOrder: seq<int>, org: Option<int>): (r: seq<ProjectEntry>)
    ensures forall e :: e in r ==> e.hasProjectAccess && e.id.Some?
    ensures forall p :: ProjectEntry(Some(p), true) in r <==>
      p in projectOrder && p in h.projects && org == Some(h.projects[p].organization) && h.projects[p].isActive
  {
    var ps := Where(projectOrder, (p: int) => p in h.projects && org == Some(h.projects[p].organization) &&
                                              h.projects[p].isActive);
    var r := Map(ps, (p: int) => ProjectEntry(Some(p), true));
    assert forall e :: e in r ==> exists k :: 0 <= k < |ps| && e == ProjectEntry(Some(ps[k]), true);
    forall p | p in ps ensures ProjectEntry(Some(p), true) in r {
      var k :| 0 <= k < |ps| && ps[k] == p;
      assert r[k] in r;
    }
    forall p | ProjectEntry(Some(p), true) in r ensures p in ps {
      var k :| 0 <= k < |r| && r[k] == ProjectEntry(Some(p), true);
      assert ps[k] == p && ps[k] in ps;
    }
    r
  }

  /** A row the non-admin branch of `get_projects` selects for `obj`:
    * `filter(user=obj.user, organization=obj.organization)` and the group
    * filter. */
  predicate Eligible(h: Hierarchy, obj: Role, x: Role)
  {
    x.user == obj.user && x.organization == obj.organization && Listed(h, x)
  }

  function EligibleRows(h: Hierarchy, store: seq<Role>, obj: Role): (r: seq<Role>)
    ensures forall x :: x in r <==> x in store && Eligible(h, obj, x)
  {
    Where(store, (x: Role) => Eligible(h, obj, x))
  }

  function RoleEntry(x: Role): ProjectEntry
  {
    ProjectEntry(x.project, HasProjectAccess(x.group))
  }

  /** The other branch of `get_projects`: `MyProjectSerializer` over the
    * selected rows, one per project. */
  function RoleProjects(h: Hierarchy, store: seq<Role>, obj: Role): seq<ProjectEntry>
  {
    Map(DistinctOnProject(EligibleRows(h, store, obj)), RoleEntry)
  }

  /** No project is listed twice. */
  lemma RoleProjectsAreDistinct(h: Hierarchy, store: seq<Role>, obj: Role)
    ensures var r := RoleProjects(h, store, obj);
      forall i, j :: 0 <= i < j < |r| ==> r[i].id != r[j].id
  {
  }

  /** Every project the user holds a selected role on is listed. */
  lemma RoleProjectsCoverEligibleRoles(h: Hierarchy, store: seq<Role>, obj: Role, x: Role)
    requires x in store && Eligible(h, obj, x)
    ensures exists e :: e in RoleProjects(h, store, obj) && e.id == x.project
  {
    var rows := DistinctOnProject(EligibleRows(h, store, obj));
    var r := RoleProjects(h, store, obj);
    assert OnProject(rows, x.project);
    var y :| y in rows && y.project == x.project;
    var k :| 0 <= k < |rows| && rows[k] == y;
    assert r[k] in r;
  }

  /** Every listed entry comes from a selected role of the user, with that
    * role's project and access. */
  lemma RoleProjectsComeFromEligibleRoles(h: Hierarchy, store: seq<Role>, obj: Role, e: ProjectEntry)
    requires e in RoleProjects(h, store, obj)
    ensures exists x :: x in store && Eligible(h, obj, x) && e == RoleEntry(x)
  {
    var rows := DistinctOnProject(EligibleRows(h, store, obj));
    var k :| 0 <= k < |rows| && RoleProjects(h, store, obj)[k] == e;
    assert rows[k] in rows;
  }

  /** `get_projects`: the admin branch when the context user is an Org Admin
    * of the role's organization, the role branch otherwise. */
  function Projects(h: Hierarchy, store: seq<Role>, projectOrder: seq<int>, obj: Role, contextUser: int): (r: seq<ProjectEntry>)
    ensures HasOrganizationAccess(store, contextUser, obj.organization) ==>
      forall p :: ProjectEntry(Some(p), true) in r <==>
        p in projectOrder && p in h.projects && obj.organization == Some(h.projects[p].organization) &&
        h.projects[p].isActive
    ensures HasOrganizationAccess(store, contextUser, obj.organization) ==> forall e :: e in r ==> e.hasProjectAccess
    ensures !HasOrganizationAccess(store, contextUser, obj.organization) ==> r == RoleProjects(h, store, obj)
  {
    if HasOrganizationAccess(store, contextUser, obj.organization) then AdminProjects(h, projectOrder, obj.organization)
    else RoleProjects(h, store, obj)
  }

  /** A user whose only listed role on an active project is a Project
    * Manager role sees that project with access. */
  lemma ManagedProjectIsListedWithAccess(h: Hierarchy, store: seq<Role>, projectOrder: seq<int>, obj: Role, contextUser: int, x: Role)
    requires !HasOrganizationAccess(store, contextUser, obj.organization)
    requires x in store && x.user == obj.user && x.organization == obj.organization
    requires x.group == ProjectManager && ProjectActive(h, x.project)
    requires forall y :: (y in store && y.user == obj.user && y.organization == obj.organization && Listed(h, y) &&
                          y.project == x.project) ==> y.group == ProjectManager
    ensures ProjectEntry(x.project, true) in Projects(h, store, projectOrder, obj, contextUser)
  {
    RoleProjectsCoverEligibleRoles(h, store, obj, x);
    var e :| e in RoleProjects(h, store, obj) && e.id == x.project;
    RoleProjectsComeFromEligibleRoles(h, store, obj, e);
  }

  /** A serialized field value. */
  datatype Field = Text(text: string) | Number(n: int) | Flag(b: bool) | Entries(entries: seq<ProjectEntry>)

  /** `to_representation`: the serialized card loses its `team_url` unless
    * the context user is an Org Admin of the card's organization; `pop` of a
    * missing key would raise. */
  function ToRepresentation(data: map<string, Field>, store: seq<Role>, contextUser: int, obj: Role): (r: Option<map<string, Field>>)
    ensures r.None? <==> !HasOrganizationAccess(store, contextUser, obj.organization) && "team_url" !in data
    ensures r.Some? ==>
      ("team_url" in r.value <==> HasOrganizationAccess(store, contextUser, obj.organization) && "team_url" in data) &&
      (forall k :: k != "team_url" ==> (k in r.value <==> k in data)) &&
      (forall k :: k in r.value ==> r.value[k] == data[k])
  {
    if !HasOrganizationAccess(store, contextUser, obj.organization) then
      if "team_url" in data then Some(data - {"team_url"}) else None
    else Some(data)
  }
}
