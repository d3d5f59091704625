/** The REST framework permission classes and helpers of
  * fv3/role_api_permissions.py. Ids arrive as query-parameter or URL strings;
  * a lookup that finds no row returns a `Response` object (a truthy value to
  * REST framework), an id that is not a number raises. */
module RoleApiPermissions {
  import opened Common

  const SiteRoles: set<Group> := {SiteSupervisor, Reviewer}
  const RegionRoles: set<Group> := {RegionReviewer, RegionSupervisor}

  /** Who may read site `id`: the Org Admin of its organization, a PM or
    * Donor of its project, a Region Reviewer/Supervisor by the region test,
    * a Site Supervisor/Reviewer by the site test. */
  predicate ReadsSite(roles: seq<Role>, h: Hierarchy, id: int)
    requires Wf(h) && id in h.sites
  {
    var s := h.sites[id];
    HasOrgRole(roles, {OrganizationAdmin}, h.projects[s.project].organization) ||
    HasProjectRole(roles, {ProjectManager, ProjectDonor}, s.project) ||
    RegionMatch(roles, RegionRoles, h, s) ||
    SiteMatch(roles, SiteRoles, s, id)
  }

  /** Who may write site `id`: the Org Admin of its organization, a PM of its
    * project, a Region Supervisor on one of its region's parent regions, or a
    * Site Supervisor of exactly this site. */
  predicate WritesSite(roles: seq<Role>, h: Hierarchy, id: int)
    requires Wf(h) && id in h.sites
  {
    var s := h.sites[id];
    HasOrgRole(roles, {OrganizationAdmin}, h.projects[s.project].organization) ||
    HasProjectRole(roles, {ProjectManager}, s.project) ||
    (s.region.Some? && HasRegionRoleIn(roles, {RegionSupervisor}, h.regions[s.region.value].ancestors)) ||
    HasSiteRole(roles, {SiteSupervisor}, id)
  }

  /** The site-level test chain shared by `SitePermissions`,
    * `check_site_permission` and the 'retrieve' action, in the code's order. */
  function SiteChain(roles: seq<Role>, h: Hierarchy, id: int): (ok: bool)
    requires Wf(h) && id in h.sites
    ensures ok <==> ReadsSite(roles, h, id)
  {
    var s := h.sites[id];
    if HasOrgRole(roles, {OrganizationAdmin}, h.projects[s.project].organization) then true
    else if HasProjectRole(roles, {ProjectManager, ProjectDonor}, s.project) then true
    else if s.region.Some? && HasRegionRoleIn(roles, RegionRoles, h.regions[s.region.value].ancestors) then true
    else if s.region.None? && HasNullRegionRole(roles, RegionRoles) then true
    else if s.parent.Some? && HasSiteRoleIn(roles, SiteRoles, s.ancestors) then true
    else if s.parent.None? && HasSiteRole(roles, SiteRoles, id) then true
    else false
  }

  /** `check_site_permission(request, pk)`. */
  function CheckSitePermission(req: Request, h: Hierarchy, pk: string): (v: Verdict)
    requires Wf(h)
    ensures req.isSuperAdmin ==> v.Allow?
    ensures !req.isSuperAdmin ==>
      match ParseInt(pk)
      case None => v.Fault?
      case Some(id) =>
        if id == 0 then v.Refuse?
        else if id !in h.sites then v == Respond(204)
        else (v.Allow? <==> ReadsSite(req.roles, h, id)) && (v.Allow? || v.Refuse?)
  {
    if req.isSuperAdmin then Allow
    else match ParseInt(pk)
      case None => Fault
      case Some(id) =>
        if id != 0 then
          if id !in h.sites then Respond(204)
          else if SiteChain(req.roles, h, id) then Allow
          else Refuse
        else Refuse
  }

  /** `has_write_permission_in_site(request, pk)`. For site id 0 the function
    * falls off its end and returns None. */
  function HasWritePermissionInSite(req: Request, h: Hierarchy, pk: string): (v: Verdict)
    requires Wf(h)
    ensures req.isSuperAdmin ==> v.Allow?
    ensures !req.isSuperAdmin ==>
      match ParseInt(pk)
      case None => v.Fault?
      case Some(id) =>
        if id == 0 then v.NoVerdict?
        else if id !in h.sites then v == Respond(204)
        else (v.Allow? <==> WritesSite(req.roles, h, id)) && (v.Allow? || v.Refuse?)
  {
    if req.isSuperAdmin then Allow
    else match ParseInt(pk)
      case None => Fault
      case Some(id) =>
        if id != 0 then
          if id !in h.sites then Respond(204)
          else
            var s := h.sites[id];
            if HasOrgRole(req.roles, {OrganizationAdmin}, h.projects[s.project].organization) then Allow
            else if HasProjectRole(req.roles, {ProjectManager}, s.project) then Allow
            else if s.region.Some? && HasRegionRoleIn(req.roles, {RegionSupervisor}, h.regions[s.region.value].ancestors) then Allow
            else if HasSiteRole(req.roles, {SiteSupervisor}, id) then Allow
            else Refuse
        else NoVerdict
  }

  /** Donors, Reviewers and Region Reviewers never get write access. */
  lemma {:induction false} ReadOnlyKindsNeverWrite(req: Request, h: Hierarchy, pk: string)
    requires Wf(h) && !req.isSuperAdmin
    requires forall m :: m in req.roles ==> m.group in {ProjectDonor, Reviewer, RegionReviewer}
    ensures !HasWritePermissionInSite(req, h, pk).Allow?
  {
    match ParseInt(pk)
    case None =>
    case Some(id) =>
      if id != 0 && id in h.sites {
        assert !WritesSite(req.roles, h, id);
      }
  }

  /** On a top-level site, everyone with write access also has read access. */
  lemma {:induction false} WriteImpliesReadOnTopLevelSite(req: Request, h: Hierarchy, pk: string)
    requires Wf(h)
    requires ParseInt(pk).Some? && ParseInt(pk).value in h.sites && h.sites[ParseInt(pk).value].parent.None?
    ensures HasWritePermissionInSite(req, h, pk).Allow? ==> CheckSitePermission(req, h, pk).Allow?
  {
    var id := ParseInt(pk).value;
    if !req.isSuperAdmin && id != 0 && WritesSite(req.roles, h, id) {
      var s := h.sites[id];
      if s.region.Some? && HasRegionRoleIn(req.roles, {RegionSupervisor}, h.regions[s.region.value].ancestors) {
        var m :| m in req.roles && m.group in {RegionSupervisor} && m.region.Some?
                 && m.region.value in h.regions[s.region.value].ancestors;
        assert RegionMatch(req.roles, RegionRoles, h, s);
      }
      assert ReadsSite(req.roles, h, id);
    }
  }

  /** A witness, on one concrete hierarchy: on a sub-site whose parent
    * sites do not include itself, the Site Supervisor of the sub-site has
    * write access but no read access. */
  lemma SubSiteSupervisorWritesWithoutReading()
    ensures
      var h := Hierarchy(map[1 := Organization(true)], map[2 := Project(1, true, false)], map[],
                         map[3 := Site(2, None, None, {}, "p", true), 4 := Site(2, None, Some(3), {3}, "c", true)],
                         map[]);
      var req := Request(9, false, [Role(1, 9, SiteSupervisor, None, None, None, Some(4), None, 0, None)]);
      Wf(h) && HasWritePermissionInSite(req, h, "4") == Allow && CheckSitePermission(req, h, "4") == Refuse
  {
    var h := Hierarchy(map[1 := Organization(true)], map[2 := Project(1, true, false)], map[],
                       map[3 := Site(2, None, None, {}, "p", true), 4 := Site(2, None, Some(3), {3}, "c", true)],
                       map[]);
    var role := Role(1, 9, SiteSupervisor, None, None, None, Some(4), None, 0, None);
    var req := Request(9, false, [role]);
    assert ParseInt("4") == Some(4) by { assert DigitsValue("4") == 4 by { assert "4"[..0] == ""; } }
    assert forall m :: m in req.roles ==> m == role;
    assert HasSiteRole(req.roles, {SiteSupervisor}, 4);
    assert !ReadsSite(req.roles, h, 4);
  }

  /** `check_regional_perm(request, region)`: a missing or empty region id
    * gives False. */
  function CheckRegionalPerm(req: Request, h: Hierarchy, region: Option<string>): (v: Verdict)
    requires Wf(h)
    ensures req.isSuperAdmin ==> v.Allow?
    ensures !req.isSuperAdmin && (region.None? || region.value == "") ==> v.Refuse?
    ensures !req.isSuperAdmin && region.Some? && region.value != "" ==>
      match ParseInt(region.value)
      case None => v.Fault?
      case Some(id) =>
        if id !in h.regions then v == Respond(204)
        else
          var g := h.regions[id];
          (v.Allow? || v.Refuse?) &&
          (v.Allow? <==>
            HasOrgRole(req.roles, {OrganizationAdmin}, h.projects[g.project].organization) ||
            HasProjectRole(req.roles, {ProjectManager, ProjectDonor}, g.project) ||
            HasRegionRoleIn(req.roles, RegionRoles, g.ancestors))
  {
    if req.isSuperAdmin then Allow
    else if region.None? || region.value == "" then Refuse
    else match ParseInt(region.value)
      case None => Fault
      case Some(id) =>
        if id !in h.regions then Respond(204)
        else
          var g := h.regions[id];
          if HasOrgRole(req.roles, {OrganizationAdmin}, h.projects[g.project].organization) then Allow
          else if HasProjectRole(req.roles, {ProjectManager, ProjectDonor}, g.project) then Allow
          else if HasRegionRoleIn(req.roles, RegionRoles, g.ancestors) then Allow
          else Refuse
  }

  /** `RegionalPermission.has_permission` as written: the truthiness of
    * `check_regional_perm`, so the 204 `Response` for an unknown region id
    * counts as permission. */
  function RegionalPermission(req: Request, h: Hierarchy, region: Option<string>): (v: Verdict)
    requires Wf(h)
    ensures v.Allow? || v.Refuse? || v.Fault?
    ensures v.Allow? <==> Truthy(CheckRegionalPerm(req, h, region))
  {
    match CheckRegionalPerm(req, h, region)
    case Fault => Fault
    case v => if Truthy(v) then Allow else Refuse
  }

  /** An unknown region id admits any requester, whatever their roles. */
  lemma {:induction false} UnknownRegionAdmitsEveryone(req: Request, h: Hierarchy, region: string)
    requires Wf(h) && ParseInt(region).Some? && ParseInt(region).value !in h.regions
    ensures RegionalPermission(req, h, Some(region)) == Allow
  {
    assert region != "";
  }

  /** `RegionalPermission` as evidently intended: only a True answer of
    * `check_regional_perm` admits; the 204 `Response` refuses. */
  function RegionalPermissionIntended(req: Request, h: Hierarchy, region: Option<string>): (v: Verdict)
    requires Wf(h)
    ensures v.Allow? || v.Refuse? || v.Fault?
    ensures v.Allow? <==> CheckRegionalPerm(req, h, region).Allow?
  {
    match CheckRegionalPerm(req, h, region)
    case Fault => Fault
    case Allow => Allow
    case _ => Refuse
  }

  /** With the intended reading, an unknown region admits only a super
    * admin, and every admitted requester holds a qualifying role. */
  lemma {:induction false} IntendedRegionalPermissionNeedsARole(req: Request, h: Hierarchy, region: string)
    requires Wf(h) && !req.isSuperAdmin && ParseInt(region).Some?
    ensures RegionalPermissionIntended(req, h, Some(region)) == Allow ==>
      var id := ParseInt(region).value;
      id in h.regions &&
      (HasOrgRole(req.roles, {OrganizationAdmin}, h.projects[h.regions[id].project].organization) ||
       HasProjectRole(req.roles, {ProjectManager, ProjectDonor}, h.regions[id].project) ||
       HasRegionRoleIn(req.roles, RegionRoles, h.regions[id].ancestors))
  {
    assert region != "";
  }

  /** `SitePermissions.has_permission` for URL id `pk`. */
  function SitePermissions(req: Request, h: Hierarchy, pk: Option<string>): (v: Verdict)
    requires Wf(h)
    ensures req.isSuperAdmin ==> v.Allow?
    ensures !req.isSuperAdmin ==>
      match LookupKey(pk, h.sites)
      case Invalid => v.Fault?
      case Missing => v == Respond(404)
      case Found(id) => (v.Allow? || v.Refuse?) && (v.Allow? <==> ReadsSite(req.roles, h, id))
  {
    if req.isSuperAdmin then Allow
    else match LookupKey(pk, h.sites)
      case Invalid => Fault
      case Missing => Respond(404)
      case Found(id) => if SiteChain(req.roles, h, id) then Allow else Refuse
  }

  /** `ProjectDashboardPermissions.has_permission`: the project comes from
    * the 'project' query parameter when present, else from the URL. */
  function ProjectDashboardPermissions(req: Request, h: Hierarchy, projectParam: Option<string>, pk: Option<string>): (v: Verdict)
    requires Wf(h)
    ensures req.isSuperAdmin ==> v.Allow?
    ensures !req.isSuperAdmin ==>
      match LookupKey(if projectParam.Some? then projectParam else pk, h.projects)
      case Invalid => v.Fault?
      case Missing => v == Respond(404)
      case Found(p) =>
        (v.Allow? || v.Refuse?) &&
        (v.Allow? <==>
          HasOrgRole(req.roles, {OrganizationAdmin}, h.projects[p].organization) ||
          HasProjectRole(req.roles, {ProjectManager, ProjectDonor}, p))
  {
    if req.isSuperAdmin then Allow
    else
      var key := if projectParam.Some? then projectParam else pk;
      match LookupKey(key, h.projects)
      case Invalid => Fault
      case Missing => Respond(404)
      case Found(p) =>
        if HasOrgRole(req.roles, {OrganizationAdmin}, h.projects[p].organization) then Allow
        else if HasProjectRole(req.roles, {ProjectManager, ProjectDonor}, p) then Allow
        else Refuse
  }

  /** What `view.get_object()` of a REST framework generic view finds: it
    * raises AssertionError when the view has no lookup keyword, raises Http404
    * when no row matches, or finds an object; `project` is `obj.project.id`
    * when the object has a non-null project, and `id` is `obj.id`. Before it
    * returns the object, `get_object()` runs `check_object_permissions`, which
    * calls this class's own `has_object_permission` and raises
    * PermissionDenied when that is false. (A plain `APIView` has no
    * `get_object`; that AttributeError is not part of this model.) */
  datatype ViewObject = NoLookupKeyword | NoSuchObject | Object(project: Option<int>, id: int)

  /** The project an object is judged by: `obj.project.id`, or `obj.id` when
    * that raises. */
  function ObjectProject(obj: ViewObject): int
    requires obj.Object?
  {
    if obj.project.Some? then obj.project.value else obj.id
  }

  /** PM or Donor of project `p`, or Org Admin of its organization, among
    * the requester's own roles. */
  predicate ManagesOrFundsProject(req: Request, h: Hierarchy, p: int)
  {
    HasProjectRole(OfUser(req.roles, req.user), {ProjectManager, ProjectDonor}, p) ||
    (p in h.projects && HasOrgRole(OfUser(req.roles, req.user), {OrganizationAdmin}, h.projects[p].organization))
  }

  /** PM (not Donor) of project `p`, or Org Admin of its organization, among
    * the requester's own roles. */
  predicate ManagesProject(req: Request, h: Hierarchy, p: int)
  {
    HasProjectRole(OfUser(req.roles, req.user), {ProjectManager}, p) ||
    (p in h.projects && HasOrgRole(OfUser(req.roles, req.user), {OrganizationAdmin}, h.projects[p].organization))
  }

  /** `ProjectRoleApiPermissions.has_permission`. */
  function ProjectRoleApiHasPermission(req: Request, h: Hierarchy, projectParam: Option<string>, obj: ViewObject): (v: Verdict)
    requires Wf(h)
    ensures req.isSuperAdmin ==> v.Allow?
    ensures !req.isSuperAdmin && projectParam.Some? && projectParam.value != "" ==>
      match ParseInt(projectParam.value)
      case None => v.Fault?
      case Some(p) =>
        if p !in h.projects then v == Respond(404)
        else (v.Allow? || v.Refuse?) && (v.Allow? <==> ManagesOrFundsProject(req, h, p))
    ensures !req.isSuperAdmin && (projectParam.None? || projectParam.value == "") ==>
      match obj
      case NoLookupKeyword => v == Respond(204)
      case NoSuchObject => v.Fault?
      case Object(_, _) =>
        // `get_object()` raises PermissionDenied (or the object check's own
        // lookup error) unless the object check passes, and then the role
        // filters always grant
        (v.Allow? <==> ProjectRoleApiHasObjectPermission(req, h, Some(obj)).Allow?) &&
        (v.Allow? <==> ManagesProject(req, h, ObjectProject(obj))) &&
        (v.Allow? || v.Fault?)
  {
    var mine := OfUser(req.roles, req.user);
    if req.isSuperAdmin then Allow
    else if projectParam.Some? && projectParam.value != "" then
      match ParseInt(projectParam.value)
      case None => Fault
      case Some(p) =>
        if p !in h.projects then Respond(404)
        else if HasProjectRole(mine, {ProjectManager, ProjectDonor}, p) then Allow
        else if HasOrgRole(mine, {OrganizationAdmin}, h.projects[p].organization) then Allow
        else Refuse
    else match obj
      case NoLookupKeyword => Respond(204)
      case NoSuchObject => Fault
      case Object(_, _) =>
        if !ProjectRoleApiHasObjectPermission(req, h, Some(obj)).Allow? then Fault
        else
        var p := ObjectProject(obj);
        if HasProjectRole(mine, {ProjectManager, ProjectDonor}, p) then Allow
        else if p !in h.projects then Fault
        else if HasOrgRole(mine, {OrganizationAdmin}, h.projects[p].organization) then Allow
        else Refuse
  }

  /** `ProjectRoleApiPermissions.has_object_permission`: PM (not Donor) or
    * Org Admin. `obj` None stands for a falsy object. */
  function ProjectRoleApiHasObjectPermission(req: Request, h: Hierarchy, obj: Option<ViewObject>): (v: Verdict)
    requires Wf(h)
    requires obj.Some? ==> obj.value.Object?
    ensures req.isSuperAdmin ==> v.Allow?
    ensures !req.isSuperAdmin && obj.None? ==> v.Refuse?
    ensures !req.isSuperAdmin && obj.Some? ==>
      var p := ObjectProject(obj.value);
      var mine := OfUser(req.roles, req.user);
      (v.Allow? <==> HasProjectRole(mine, {ProjectManager}, p) ||
                     (p in h.projects && HasOrgRole(mine, {OrganizationAdmin}, h.projects[p].organization))) &&
      (v.Allow? || v.Refuse? || v.Fault?)
  {
    var mine := OfUser(req.roles, req.user);
    if req.isSuperAdmin then Allow
    else if obj.None? then Refuse
    else
      var p := ObjectProject(obj.value);
      if HasProjectRole(mine, {ProjectManager}, p) then Allow
      else if p !in h.projects then Fault
      else if HasOrgRole(mine, {OrganizationAdmin}, h.projects[p].organization) then Allow
      else Refuse
  }

  /** Whoever passes the object check on an object passes the view check on
    * it too; without the `project` parameter the two agree exactly, because
    * `get_object()` runs the object check first. */
  lemma {:induction false} ObjectPermissionImpliesViewPermission(req: Request, h: Hierarchy, obj: ViewObject)
    requires Wf(h) && obj.Object?
    ensures ProjectRoleApiHasObjectPermission(req, h, Some(obj)).Allow? <==>
            ProjectRoleApiHasPermission(req, h, None, obj).Allow?
  {
    var p := ObjectProject(obj);
    var mine := OfUser(req.roles, req.user);
    if HasProjectRole(mine, {ProjectManager}, p) {
      var m :| m in mine && m.group in {ProjectManager} && m.project == Some(p);
      assert HasProjectRole(mine, {ProjectManager, ProjectDonor}, p);
    }
  }

  /** A Donor of the project passes the view check when the project is named
    * by the `project` parameter, but not the object check. */
  lemma {:induction false} DonorPassesViewCheckOnly(h: Hierarchy, p: int, donor: Role)
    requires Wf(h) && p in h.projects
    requires donor.user == 1 && donor.group == ProjectDonor && donor.project == Some(p)
    ensures ProjectRoleApiHasPermission(Request(1, false, [donor]), h, Some(IntToString(p)), Object(None, p)) == Allow
    ensures ProjectRoleApiHasObjectPermission(Request(1, false, [donor]), h, Some(Object(None, p))) == Refuse
  {
    var req := Request(1, false, [donor]);
    IntToStringParses(p);
    assert donor in OfUser(req.roles, 1);
    assert forall m :: m in OfUser(req.roles, 1) ==> m == donor;
  }

  /** Without the `project` parameter the same Donor is stopped by
    * `get_object()`, whose object check raises PermissionDenied. */
  lemma {:induction false} DonorRefusedOnObjectPath(h: Hierarchy, p: int, donor: Role)
    requires Wf(h) && p in h.projects
    requires donor.user == 1 && donor.group == ProjectDonor && donor.project == Some(p)
    ensures ProjectRoleApiHasPermission(Request(1, false, [donor]), h, None, Object(None, p)) == Fault
  {
    var req := Request(1, false, [donor]);
    assert donor in OfUser(req.roles, 1);
    assert forall m :: m in OfUser(req.roles, 1) ==> m == donor;
  }

  /** `TeamCreationPermission.has_permission`: a Super Admin role, or no
    * organization at all. Note that it looks for a role of group Super Admin
    * rather than at `request.is_super_admin`. */
  function TeamCreationPermission(req: Request, userOrganizations: set<int>): (v: Verdict)
    ensures v.Allow? || v.Refuse?
    ensures v.Allow? <==> HasGroup(req.roles, {SuperAdmin}) || userOrganizations == {}
  {
    if HasGroup(req.roles, {SuperAdmin}) then Allow
    else if userOrganizations == {} then Allow
    else Refuse
  }

  /** The query parameters and URL id `SiteFormPermissions` reads. */
  datatype SiteFormParams = SiteFormParams(project: Option<string>, site: Option<string>,
                                           region: Option<string>, pk: Option<string>)

  /** `SiteFormPermissions.has_permission` for a view action. */
  function SiteFormPermissions(req: Request, h: Hierarchy, action: string, q: SiteFormParams): (v: Verdict)
    requires Wf(h)
    // 'list' is permitted before any role check
    ensures action == "list" ==> v.Allow?
    // 'create' dispatches on which parameters are present
    ensures action == "create" && !req.isSuperAdmin ==>
      if q.project.Some? && q.region.Some? then v == CheckRegionalPerm(req, h, q.region)
      else if q.project.Some? && q.site.Some? then v == CheckSitePermission(req, h, q.site.value)
      else if q.project.Some? then
        match LookupKey(q.project, h.projects)
        case Invalid => v.Fault?
        case Missing => v == Respond(404)
        case Found(p) =>
          (v.Allow? || v.Refuse?) &&
          (v.Allow? <==> HasOrgRole(req.roles, {OrganizationAdmin}, h.projects[p].organization) ||
                         HasProjectRole(req.roles, {ProjectManager}, p))
      else v.NoVerdict?
    ensures action == "retrieve" ==> v == SitePermissions(req, h, q.pk)
    // 'destroy' looks the site up before the super admin test
    ensures action == "destroy" ==>
      match LookupKey(q.pk, h.sites)
      case Found(id) =>
        (v.Allow? || v.Refuse?) &&
        (v.Allow? <==> req.isSuperAdmin ||
                       HasOrgRole(req.roles, {OrganizationAdmin}, h.projects[h.sites[id].project].organization) ||
                       HasProjectRole(req.roles, {ProjectManager}, h.sites[id].project))
      case _ => v.Fault?
    ensures action !in {"list", "create", "retrieve", "destroy"} ==> v.NoVerdict?
    ensures req.isSuperAdmin && action in {"create", "retrieve"} ==> v.Allow?
  {
    if action == "list" then Allow
    else if action == "create" then
      if req.isSuperAdmin then Allow
      else if q.project.Some? && q.region.Some? then CheckRegionalPerm(req, h, q.region)
      else if q.project.Some? && q.site.Some? then CheckSitePermission(req, h, q.site.value)
      else if q.project.Some? then
        match LookupKey(q.project, h.projects)
        case Invalid => Fault
        case Missing => Respond(404)
        case Found(p) =>
          if HasOrgRole(req.roles, {OrganizationAdmin}, h.projects[p].organization) then Allow
          else if HasProjectRole(req.roles, {ProjectManager}, p) then Allow
          else Refuse
      else NoVerdict
    else if action == "retrieve" then
      if req.isSuperAdmin then Allow
      else match LookupKey(q.pk, h.sites)
        case Invalid => Fault
        case Missing => Respond(404)
        case Found(id) => if SiteChain(req.roles, h, id) then Allow else Refuse
    else if action == "destroy" then
      match LookupKey(q.pk, h.sites)
      case Found(id) =>
        var p := h.sites[id].project;
        if req.isSuperAdmin then Allow
        else if HasOrgRole(req.roles, {OrganizationAdmin}, h.projects[p].organization) then Allow
        else if HasProjectRole(req.roles, {ProjectManager}, p) then Allow
        else Refuse
      case _ => Fault
    else NoVerdict
  }

  /** A Donor can read a project's forms' sites but cannot create a site form
    * with only a project given, nor destroy one. */
  lemma {:induction false} SiteFormDonorExcluded(req: Request, h: Hierarchy, q: SiteFormParams)
    requires Wf(h) && !req.isSuperAdmin
    requires forall m :: m in req.roles ==> m.group == ProjectDonor
    ensures q.project.Some? && q.region.None? && q.site.None? ==> !SiteFormPermissions(req, h, "create", q).Allow?
    ensures !SiteFormPermissions(req, h, "destroy", q).Allow?
  {
  }
}
