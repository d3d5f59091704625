/** The UserRole model of userrole/models.py: validation (`clean`), the scope
  * derivation `save` and `update` perform on a role's fields before it is
  * stored, and the static active-role queries. */
module UserRoles {
  import opened Common

  const SiteGroups: set<Group> := {SiteSupervisor, Reviewer}
  const RegionGroups: set<Group> := {RegionSupervisor, RegionReviewer}

  /** Foreign keys of a role resolve in the hierarchy. */
  predicate RefsResolve(h: Hierarchy, r: Role)
  {
    && (r.organization.Some? ==> r.organization.value in h.organizations)
    && (r.project.Some? ==> r.project.value in h.projects)
    && (r.region.Some? ==> r.region.value in h.regions)
    && (r.site.Some? ==> r.site.value in h.sites)
  }

  /** `not self.x_id`: a null id, or the falsy id 0. */
  predicate Unset(id: Option<int>) { id.None? || id.value == 0 }

  // ---------------------------------------------------------------- clean

  datatype CleanError = MissingSite | MissingProject | MissingOrganization | MissingRegion | AlreadyExists

  /** The scope a role of its group must name but does not. */
  predicate ScopeMissing(r: Role)
  {
    || (r.group in SiteGroups && Unset(r.site))
    || (r.group == ProjectManager && Unset(r.project))
    || (r.group == OrganizationAdmin && Unset(r.organization))
    || (r.group in RegionGroups && Unset(r.region))
  }

  /** The key of the duplicate test: user, group, project, region and site.
    * Neither the organization nor `ended_at` is part of it. */
  predicate SameKey(x: Role, r: Role)
  {
    x.user == r.user && x.group == r.group && x.project == r.project &&
    x.region == r.region && x.site == r.site
  }

  /** `UserRole.clean`: the first failing validation, or None when the role
    * is valid against the rows already stored. */
  function Clean(r: Role, store: seq<Role>): (e: Option<CleanError>)
    ensures e == Some(MissingSite) <==> r.group in SiteGroups && Unset(r.site)
    ensures e == Some(MissingProject) <==> r.group == ProjectManager && Unset(r.project)
    ensures e == Some(MissingOrganization) <==> r.group == OrganizationAdmin && Unset(r.organization)
    ensures e == Some(MissingRegion) <==> r.group in RegionGroups && Unset(r.region)
    ensures e == Some(AlreadyExists) <==> !ScopeMissing(r) && exists x :: x in store && SameKey(x, r)
    ensures e.None? <==> !ScopeMissing(r) && forall x :: x in store ==> !SameKey(x, r)
  {
    if r.group in SiteGroups && Unset(r.site) then Some(MissingSite)
    else if r.group == ProjectManager && Unset(r.project) then Some(MissingProject)
    else if r.group == OrganizationAdmin && Unset(r.organization) then Some(MissingOrganization)
    else if r.group in RegionGroups && Unset(r.region) then Some(MissingRegion)
    else if exists x :: x in store && SameKey(x, r) then Some(AlreadyExists)
    else None
  }

  /** An ended role still blocks a new role with the same key: the duplicate
    * test ignores `ended_at`, so a user can never be given back a role they
    * once held on the same scope. */
  lemma EndedRoleStillBlocks(r: Role, store: seq<Role>, old_: Role)
    requires old_ in store && old_.endedAt.Some? && SameKey(old_, r) && !ScopeMissing(r)
    ensures Clean(r, store) == Some(AlreadyExists)
  {
  }

  // -------------------------------------------------------- save / update

  /** The normal form `save` is meant to bring a role into: each group keeps
    * exactly the scope fields it needs, and the organization and project
    * follow from the most specific scope. */
  predicate ScopeConsistent(h: Hierarchy, r: Role)
    requires Wf(h) && RefsResolve(h, r)
  {
    match r.group
    case SuperAdmin => r.organization.None? && r.project.None? && r.site.None? && r.region.None?
    case StaffProjectManager => r.organization.None? && r.project.None? && r.site.None? && r.region.None?
    case OrganizationAdmin => r.project.None? && r.site.None? && r.region.None?
    case ProjectManager =>
      r.site.None? && r.region.None? && r.project.Some? &&
      r.organization == Some(h.projects[r.project.value].organization)
    case ProjectDonor =>
      r.site.None? && r.region.None? && r.project.Some? &&
      r.organization == Some(h.projects[r.project.value].organization)
    case SiteSupervisor =>
      r.site.Some? && r.project == Some(h.sites[r.site.value].project) &&
      r.organization == Some(h.projects[h.sites[r.site.value].project].organization)
    case Reviewer =>
      r.site.Some? && r.project == Some(h.sites[r.site.value].project) &&
      r.organization == Some(h.projects[h.sites[r.site.value].project].organization)
    case RegionSupervisor =>
      r.region.Some? && r.project == Some(h.regions[r.region.value].project) &&
      r.organization == Some(h.projects[h.regions[r.region.value].project].organization)
    case RegionReviewer =>
      r.region.Some? && r.project == Some(h.regions[r.region.value].project) &&
      r.organization == Some(h.projects[h.regions[r.region.value].project].organization)
    case Unassigned => true
  }

  /** Fields the derivation never touches. */
  predicate SameIdentity(a: Role, b: Role)
  {
    a.id == b.id && a.user == b.user && a.group == b.group && a.staffProject == b.staffProject &&
    a.startedAt == b.startedAt && a.endedAt == b.endedAt
  }

  /** The field assignments of `save` (or of `update`, with `staffBranch`
    * false and no donor name matching a group), with the name the donor
    * branch compares the group name against. None: `self.project`,
    * `self.site` or `self.region` is None where the code follows it, which
    * raises AttributeError. */
  function Derive(h: Hierarchy, r: Role, donorName: string, staffBranch: bool): (res: Option<Role>)
    requires Wf(h) && RefsResolve(h, r)
    ensures res.Some? ==> SameIdentity(res.value, r) && RefsResolve(h, res.value)
  {
    if r.group == SuperAdmin then
      Some(r.(organization := None, project := None, site := None, region := None))
    else if r.group == OrganizationAdmin then
      Some(r.(project := None, site := None, region := None))
    else if r.group == ProjectManager then
      if r.project.None? then None
      else
        var p := r.project.value;
        assert h.projects[p].organization in h.organizations;
        Some(r.(site := None, region := None, organization := Some(h.projects[p].organization)))
    else if GroupName(r.group) == donorName then
      if r.project.None? then None
      else
        var p := r.project.value;
        assert h.projects[p].organization in h.organizations;
        Some(r.(site := None, region := None, organization := Some(h.projects[p].organization)))
    else if r.group in SiteGroups then
      if r.site.None? then None
      else
        var s := r.site.value;
        assert s in h.sites;
        var p := h.sites[s].project;
        assert p in h.projects;
        Some(r.(project := Some(p), organization := Some(h.projects[p].organization)))
    else if r.group in RegionGroups then
      if r.region.None? then None
      else
        var g := r.region.value;
        assert g in h.regions;
        var p := h.regions[g].project;
        assert p in h.projects;
        Some(r.(project := Some(p), organization := Some(h.projects[p].organization)))
    else if staffBranch && r.group == StaffProjectManager then
      Some(r.(organization := None, project := None, site := None, region := None))
    else Some(r)
  }

  /** `save`'s derivation as written: its donor branch compares against
    * 'Project Doner', the name of no group. */
  function SaveDerivation(h: Hierarchy, r: Role): (res: Option<Role>)
    requires Wf(h) && RefsResolve(h, r)
    ensures res.None? <==>
      (r.group == ProjectManager && r.project.None?) ||
      (r.group in SiteGroups && r.site.None?) ||
      (r.group in RegionGroups && r.region.None?)
    ensures res.Some? ==> SameIdentity(res.value, r) && RefsResolve(h, res.value)
    ensures res.Some? && r.group != ProjectDonor ==> ScopeConsistent(h, res.value)
    ensures r.group in {ProjectDonor, Unassigned} ==> res == Some(r)
    ensures res.Some? && r.group in SiteGroups ==> res.value.site == r.site && res.value.region == r.region
    ensures res.Some? && r.group in RegionGroups ==> res.value.region == r.region && res.value.site == r.site
    ensures res.Some? && r.group == OrganizationAdmin ==> res.value.organization == r.organization
    ensures res.Some? && r.group == ProjectManager ==> res.value.project == r.project
  {
    Derive(h, r, "Project Doner", true)
  }

  /** `save` as evidently intended: the donor branch names the group that
    * exists, 'Project Donor'. */
  function SaveDerivationIntended(h: Hierarchy, r: Role): (res: Option<Role>)
    requires Wf(h) && RefsResolve(h, r)
    ensures res.None? <==>
      (r.group in {ProjectManager, ProjectDonor} && r.project.None?) ||
      (r.group in SiteGroups && r.site.None?) ||
      (r.group in RegionGroups && r.region.None?)
    ensures res.Some? ==> SameIdentity(res.value, r) && RefsResolve(h, res.value) && ScopeConsistent(h, res.value)
    ensures res.Some? && r.group in {ProjectManager, ProjectDonor} ==> res.value.project == r.project
  {
    Derive(h, r, "Project Donor", true)
  }

  /** `update`'s derivation: no donor branch and no Staff Project Manager
    * branch. */
  function UpdateDerivation(h: Hierarchy, r: Role): (res: Option<Role>)
    requires Wf(h) && RefsResolve(h, r)
    ensures res.Some? ==> SameIdentity(res.value, r) && RefsResolve(h, res.value)
    ensures r.group in {ProjectDonor, Unassigned, StaffProjectManager} ==> res == Some(r)
    ensures res.Some? && r.group !in {ProjectDonor, StaffProjectManager} ==> ScopeConsistent(h, res.value)
  {
    Derive(h, r, "", false)
  }

  /** No group is called 'Project Doner', so the donor branch of `save` is
    * dead code and a donor role keeps whatever scope it was given. */
  lemma DonorBranchIsDead()
    ensures forall g: Group :: GroupName(g) != "Project Doner"
  {
    assert GroupNamed("Project Doner").None?;
  }

  /** A donor role created with a site and no organization is stored like
    * that, which is not the normal form the other branches produce. */
  lemma DonorSaveKeepsStaleScope(h: Hierarchy, p: int, s: int)
    requires Wf(h) && p in h.projects && s in h.sites
    ensures
      var r := Role(1, 1, ProjectDonor, None, Some(p), None, Some(s), None, 0, None);
      SaveDerivation(h, r) == Some(r) && !ScopeConsistent(h, r) &&
      SaveDerivationIntended(h, r).Some? && SaveDerivationIntended(h, r).value.site.None?
  {
  }

  /** A role already in normal form is a fixed point of `save`, and `save`
    * is idempotent. */
  lemma {:induction false} SaveFixesNormalForm(h: Hierarchy, r: Role)
    requires Wf(h) && RefsResolve(h, r) && r.group != ProjectDonor && ScopeConsistent(h, r)
    ensures SaveDerivation(h, r) == Some(r)
  {
    match r.group
    case SuperAdmin =>
    case StaffProjectManager =>
    case OrganizationAdmin =>
    case ProjectManager =>
    case SiteSupervisor =>
    case Reviewer =>
    case RegionSupervisor =>
    case RegionReviewer =>
    case Unassigned =>
  }

  lemma {:induction false} SaveIsIdempotent(h: Hierarchy, r: Role)
    requires Wf(h) && RefsResolve(h, r) && SaveDerivation(h, r).Some?
    ensures SaveDerivation(h, SaveDerivation(h, r).value) == SaveDerivation(h, r)
  {
    var r' := SaveDerivation(h, r).value;
    if r.group == ProjectDonor {
      assert r' == r;
    } else {
      SaveFixesNormalForm(h, r');
    }
  }

  /** `save` and `update` agree on every role except those of the Staff
    * Project Manager group, which only `save` clears. */
  lemma SaveAndUpdateDifferOnlyForStaffManagers(h: Hierarchy, r: Role)
    requires Wf(h) && RefsResolve(h, r)
    ensures r.group != StaffProjectManager ==> SaveDerivation(h, r) == UpdateDerivation(h, r)
    ensures r.group == StaffProjectManager && (r.organization.Some? || r.project.Some?) ==>
              SaveDerivation(h, r) != UpdateDerivation(h, r)
  {
    DonorBranchIsDead();
  }

  /** Every row with id `r.id` replaced by `r`. */
  function Replace(rows: seq<Role>, r: Role): (res: seq<Role>)
    ensures |res| == |rows|
    ensures forall i :: 0 <= i < |rows| ==> res[i] == if rows[i].id == r.id then r else rows[i]
  {
    if rows == [] then [] else [if rows[0].id == r.id then r else rows[0]] + Replace(rows[1..], r)
  }

  /** Where a row is stored: the row with the same id is overwritten in
    * place, otherwise the row is appended. */
  function Upsert(rows: seq<Role>, r: Role): (res: seq<Role>)
    ensures r in res
    ensures forall x :: x in rows && x.id != r.id ==> x in res
    ensures forall x :: x in res ==> x == r || (x in rows && x.id != r.id)
    ensures |res| <= |rows| + 1
  {
    if exists i :: 0 <= i < |rows| && rows[i].id == r.id then
      var res := Replace(rows, r);
      var i :| 0 <= i < |rows| && rows[i].id == r.id;
      assert res[i] == r;
      assert forall x :: x in rows && x.id != r.id ==> x in res by {
        forall x | x in rows && x.id != r.id ensures x in res {
          var j :| 0 <= j < |rows| && rows[j] == x;
          assert res[j] == x;
        }
      }
      res
    else rows + [r]
  }

  /** The UserRole table. */
  class RoleStore {
    var rows: seq<Role>
    var nextId: int

    constructor (rows0: seq<Role>, nextId0: int)
      ensures rows == rows0 && nextId == nextId0
    {
      rows := rows0;
      nextId := nextId0;
    }

    /** `Model.save()` of the base class: write the row. */
    method Put(r: Role)
      modifies this
      ensures rows == Upsert(old(rows), r) && nextId == old(nextId)
    {
      rows := Upsert(rows, r);
    }
  }

  /** An in-memory UserRole instance whose fields `save` and `update`
    * overwrite. */
  class UserRole {
    var id: int
    var user: int
    var group: Group
    var organization: Option<int>
    var project: Option<int>
    var region: Option<int>
    var site: Option<int>
    var staffProject: Option<int>
    var startedAt: int
    var endedAt: Option<int>

    function Value(): Role
      reads this
    {
      Role(id, user, group, organization, project, region, site, staffProject, startedAt, endedAt)
    }

    constructor (r: Role)
      ensures Value() == r
    {
      id, user, group := r.id, r.user, r.group;
      organization, project, region, site := r.organization, r.project, r.region, r.site;
      staffProject, startedAt, endedAt := r.staffProject, r.startedAt, r.endedAt;
    }

    /** `UserRole.save`: derive the scope fields, then store the row. When a
      * foreign key the code follows is null the call raises; the fields
      * assigned before that point keep their new values. The branch for the
      * group named 'Project Doner', between the Project Manager and the site
      * branches, never runs (`DonorBranchIsDead`) and is not written out. */
    method Save(h: Hierarchy, store: RoleStore) returns (ok: bool)
      requires Wf(h) && RefsResolve(h, Value())
      modifies this, store
      ensures ok <==> SaveDerivation(h, old(Value())).Some?
      ensures ok ==> Value() == SaveDerivation(h, old(Value())).value && store.rows == Upsert(old(store.rows), Value())
      ensures !ok ==> store.rows == old(store.rows)
      ensures !ok ==> Value() == if old(group) == ProjectManager then old(Value()).(site := None, region := None) else old(Value())
      ensures store.nextId == old(store.nextId)
    {
      DonorBranchIsDead();
      ghost var d := SaveDerivation(h, Value());
      if group == SuperAdmin {
        organization, project, site, region := None, None, None, None;
      } else if group == OrganizationAdmin {
        project, site, region := None, None, None;
      } else if group == ProjectManager {
        site, region := None, None;
        if project.None? { return false; }
        organization := Some(h.projects[project.value].organization);
      } else if group in SiteGroups {
        if site.None? { return false; }
        var s := site.value;
        assert s in h.sites;
        assert h.sites[s].project in h.projects;
        project := Some(h.sites[s].project);
        organization := Some(h.projects[project.value].organization);
      } else if group in RegionGroups {
        if region.None? { return false; }
        var g := region.value;
        assert g in h.regions;
        assert h.regions[g].project in h.projects;
        project := Some(h.regions[g].project);
        organization := Some(h.projects[project.value].organization);
      } else if group == StaffProjectManager {
        organization, project, site, region := None, None, None, None;
      }
      assert d == Some(Value());
      store.Put(Value());
      ok := true;
    }

    /** The branch assignments of `UserRole.update`: those of `save`
      * without the donor and Staff Project Manager branches. A null foreign
      * key the code follows raises, after the assignments before it. */
    method AssignForUpdate(h: Hierarchy) returns (ok: bool)
      requires Wf(h) && RefsResolve(h, Value())
      modifies this
      ensures ok <==> UpdateDerivation(h, old(Value())).Some?
      ensures ok ==> Value() == UpdateDerivation(h, old(Value())).value
      ensures !ok ==> Value() == if old(group) == ProjectManager then old(Value()).(site := None, region := None) else old(Value())
    {
      ghost var d := UpdateDerivation(h, Value());
      if group == SuperAdmin {
        organization, project, site, region := None, None, None, None;
      } else if group == OrganizationAdmin {
        project, site, region := None, None, None;
      } else if group == ProjectManager {
        site, region := None, None;
        if project.None? { return false; }
        organization := Some(h.projects[project.value].organization);
      } else if group in SiteGroups {
        if site.None? { return false; }
        var s := site.value;
        assert s in h.sites;
        assert h.sites[s].project in h.projects;
        project := Some(h.sites[s].project);
        organization := Some(h.projects[project.value].organization);
      } else if group in RegionGroups {
        if region.None? { return false; }
        var g := region.value;
        assert g in h.regions;
        assert h.regions[g].project in h.projects;
        project := Some(h.regions[g].project);
        organization := Some(h.projects[project.value].organization);
      }
      assert d == Some(Value());
      ok := true;
    }

    /** `UserRole.update` as written: the branch assignments, then
      * `super(UserRole, self).update(...)`. `models.Model` has no `update`,
      * so that call raises AttributeError: the method never succeeds, and
      * the instance keeps whatever the assignments wrote. */
    method Update(h: Hierarchy) returns (ok: bool)
      requires Wf(h) && RefsResolve(h, Value())
      modifies this
      ensures !ok
      ensures UpdateDerivation(h, old(Value())).Some? ==> Value() == UpdateDerivation(h, old(Value())).value
      ensures UpdateDerivation(h, old(Value())).None? ==>
        Value() == if old(group) == ProjectManager then old(Value()).(site := None, region := None) else old(Value())
    {
      var derived := AssignForUpdate(h);
      ok := false;
    }

    /** `UserRole.update` as evidently intended: the branch assignments,
      * then the row written as the base `save` writes it. */
    method UpdateIntended(h: Hierarchy, store: RoleStore) returns (ok: bool)
      requires Wf(h) && RefsResolve(h, Value())
      modifies this, store
      ensures ok <==> UpdateDerivation(h, old(Value())).Some?
      ensures ok ==> Value() == UpdateDerivation(h, old(Value())).value && store.rows == Upsert(old(store.rows), Value())
      ensures !ok ==> store.rows == old(store.rows)
      ensures store.nextId == old(store.nextId)
    {
      ok := AssignForUpdate(h);
      if ok {
        store.Put(Value());
      }
    }
  }

  // ------------------------------------------------------ active queries

  /** `UserRole.is_active(user, group)`: the number of active roles of the
    * user in the group of that name. */
  function IsActive(store: seq<Role>, user: int, groupName: string): (n: nat)
    ensures n > 0 <==> exists x :: x in store && x.user == user && GroupName(x.group) == groupName && Active(x)
    ensures n <= |store|
  {
    var w := Where(store, (x: Role) => x.user == user && GroupName(x.group) == groupName && Active(x));
    assert w != [] ==> w[0] in w;
    |w|
  }

  function GetActiveRoles(store: seq<Role>, user: int): (r: seq<Role>)
    ensures forall x :: x in r <==> x in store && x.user == user && Active(x)
  {
    Where(store, (x: Role) => x.user == user && Active(x))
  }

  /** The active Site Supervisor roles of the user on an active site. */
  function GetActiveSiteRoles(h: Hierarchy, store: seq<Role>, user: int): (r: seq<Role>)
    ensures forall x :: x in r <==> (x in store && x.user == user && Active(x) && x.group == SiteSupervisor &&
                                    x.site.Some? && x.site.value in h.sites && h.sites[x.site.value].isActive)
  {
    Where(store, (x: Role) => x.user == user && Active(x) && x.group == SiteSupervisor &&
                      x.site.Some? && x.site.value in h.sites && h.sites[x.site.value].isActive)
  }

  function GetActiveSiteRolesCount(h: Hierarchy, store: seq<Role>, user: int): (n: nat)
    ensures n > 0 <==> exists x :: x in GetActiveSiteRoles(h, store, user)
  {
    var w := GetActiveSiteRoles(h, store, user);
    assert w != [] ==> w[0] in w;
    |w|
  }

  /** An active Site Supervisor role on an active site, or an active Region
    * Supervisor role on an active region. */
  function GetActiveSiteRolesExists(h: Hierarchy, store: seq<Role>, user: int): (b: bool)
    ensures b <==> exists x :: (x in store && x.user == user && Active(x) &&
      ((x.group == SiteSupervisor && x.site.Some? && x.site.value in h.sites && h.sites[x.site.value].isActive) ||
       (x.group == RegionSupervisor && x.region.Some? && x.region.value in h.regions && h.regions[x.region.value].isActive)))
  {
    var w := Where(store, (x: Role) => x.user == user && Active(x) &&
      ((x.group == SiteSupervisor && x.site.Some? && x.site.value in h.sites && h.sites[x.site.value].isActive) ||
       (x.group == RegionSupervisor && x.region.Some? && x.region.value in h.regions && h.regions[x.region.value].isActive)));
    assert w != [] ==> w[0] in w;
    w != []
  }

  /** `get_roles_supervisor(user, project_id)`. */
  function GetRolesSupervisor(h: Hierarchy, store: seq<Role>, user: int, project: int): (b: bool)
    ensures b <==> exists x :: x in GetActiveSiteRoles(h, store, user) && x.project == Some(project)
  {
    var w := Where(GetActiveSiteRoles(h, store, user), (x: Role) => x.project == Some(project));
    assert w != [] ==> w[0] in w;
    w != []
  }

  function ProjectManagers(store: seq<Role>, project: int): (r: seq<Role>)
    ensures forall x :: x in r <==> x in store && x.project == Some(project) && Active(x) && x.group == ProjectManager
  {
    Where(store, (x: Role) => x.project == Some(project) && Active(x) && x.group == ProjectManager)
  }

  function OrganizationAdmins(store: seq<Role>, organization: int): (r: seq<Role>)
    ensures forall x :: x in r <==> x in store && x.organization == Some(organization) && Active(x) && x.group == OrganizationAdmin
  {
    Where(store, (x: Role) => x.organization == Some(organization) && Active(x) && x.group == OrganizationAdmin)
  }

  function CentralEngineers(store: seq<Role>, project: int): (r: seq<Role>)
    ensures forall x :: x in r <==> x in store && x.project == Some(project) && Active(x) && x.group == Reviewer
  {
    Where(store, (x: Role) => x.project == Some(project) && Active(x) && x.group == Reviewer)
  }

  /** Rows that have ended change nothing any active query returns. */
  lemma {:induction false} EndedRowsAreInvisible(h: Hierarchy, store: seq<Role>, ended: seq<Role>, user: int, project: int, organization: int)
    requires forall x :: x in ended ==> !Active(x)
    ensures GetActiveRoles(store + ended, user) == GetActiveRoles(store, user)
    ensures GetActiveSiteRoles(h, store + ended, user) == GetActiveSiteRoles(h, store, user)
    ensures ProjectManagers(store + ended, project) == ProjectManagers(store, project)
    ensures OrganizationAdmins(store + ended, organization) == OrganizationAdmins(store, organization)
    ensures CentralEngineers(store + ended, project) == CentralEngineers(store, project)
  {
    var k1 := (x: Role) => x.user == user && Active(x);
    WhereAppend(store, ended, k1);
    NoneKept(ended, k1);
    var k2 := (x: Role) => x.user == user && Active(x) && x.group == SiteSupervisor &&
                           x.site.Some? && x.site.value in h.sites && h.sites[x.site.value].isActive;
    WhereAppend(store, ended, k2);
    NoneKept(ended, k2);
    var k3 := (x: Role) => x.project == Some(project) && Active(x) && x.group == ProjectManager;
    WhereAppend(store, ended, k3);
    NoneKept(ended, k3);
    var k4 := (x: Role) => x.organization == Some(organization) && Active(x) && x.group == OrganizationAdmin;
    WhereAppend(store, ended, k4);
    NoneKept(ended, k4);
    var k5 := (x: Role) => x.project == Some(project) && Active(x) && x.group == Reviewer;
    WhereAppend(store, ended, k5);
    NoneKept(ended, k5);
  }
}
