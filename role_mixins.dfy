/** The Django view mixins of fieldsight/rolemixins.py. Each `dispatch` is a
  * short-circuiting chain of role-store tests; each function below follows
  * that chain branch by branch, and its contract states the decision as one
  * condition per outcome, independent of the order of the branches. */
module RoleMixins {
  import opened Common

  const SiteRoles: set<Group> := {SiteSupervisor, Reviewer}
  const RegionRoles: set<Group> := {RegionReviewer, RegionSupervisor}

  /** The organizations (possibly null) that a list of roles is attached to:
    * `values_list('organization').distinct()`. */
  function Organizations(roles: seq<Role>): set<Option<int>>
  {
    set r | r in roles :: r.organization
  }

  /** SameOrganizationProfileRoleMixin: may the requester view the profile of
    * user `pk`? `store` is the whole UserRole table. */
  function SameOrganizationProfile(req: Request, store: seq<Role>, pk: Option<string>): (r: Dispatch<()>)
    ensures r != NotFoundResponse
    ensures req.isSuperAdmin ==> r.Proceed?
    ensures r.Failure? <==>
      !req.isSuperAdmin && pk.Some? && pk.value != "" && pk.value != "0" && ParseInt(pk.value).None?
    ensures r.Proceed? <==>
      req.isSuperAdmin || pk.None? || pk.value == "" || pk.value == "0" ||
      (ParseInt(pk.value).Some? &&
       exists t, m :: t in store && m in req.roles && t.user == ParseInt(pk.value).value
                      && t.organization == m.organization)
  {
    if req.isSuperAdmin then Proceed(())
    else if pk.None? || pk.value == "" || pk.value == "0" then Proceed(())
    else match ParseInt(pk.value)
      case None => Failure
      case Some(uid) =>
        var requesterOrgs := Organizations(req.roles);
        var userOrgs := Organizations(OfUser(store, uid));
        var commonalities := userOrgs - (userOrgs - requesterOrgs);
        SharedOrganization(req.roles, store, uid);
        if commonalities != {} then Proceed(()) else PermissionDenied
  }

  /** The requester's and the user's organizations meet exactly when some
    * role of the user and some role of the requester name the same
    * organization. */
  lemma SharedOrganization(roles: seq<Role>, store: seq<Role>, uid: int)
    ensures var userOrgs := Organizations(OfUser(store, uid));
      userOrgs - (userOrgs - Organizations(roles)) != {} <==>
      exists t, m :: t in store && m in roles && t.user == uid && t.organization == m.organization
  {
    var requesterOrgs := Organizations(roles);
    var userOrgs := Organizations(OfUser(store, uid));
    var commonalities := userOrgs - (userOrgs - requesterOrgs);
    if exists t, m :: t in store && m in roles && t.user == uid && t.organization == m.organization {
      var t, m :| t in store && m in roles && t.user == uid && t.organization == m.organization;
      assert t in OfUser(store, uid);
      assert t.organization in commonalities;
    }
    if commonalities != {} {
      var o :| o in commonalities;
      assert o in userOrgs && o in requesterOrgs;
      var t :| t in OfUser(store, uid) && t.organization == o;
      var m :| m in roles && m.organization == o;
      assert t in store && t.user == uid;
    }
  }

  /** The set expression of rolemixins.py line 48 is an intersection. */
  lemma DifferenceOfDifferenceIsIntersection(a: set<Option<int>>, b: set<Option<int>>)
    ensures a - (a - b) == a * b
  {
  }

  /** Two users who both hold a role with no organization count as sharing
    * an organization: `None` is an element of both sets. */
  lemma {:induction false} NullOrganizationIsShared(req: Request, store: seq<Role>, pk: string, t: Role, m: Role)
    requires !req.isSuperAdmin && pk != "" && pk != "0" && ParseInt(pk).Some?
    requires t in store && t.user == ParseInt(pk).value && t.organization.None?
    requires m in req.roles && m.organization.None?
    ensures SameOrganizationProfile(req, store, Some(pk)) == Proceed(())
  {
    assert t.organization == m.organization;
  }

  /** ProjectRoleMixin on project `pk`: PM of the project (group 2) or Org
    * Admin (group 1) of its organization. */
  function ProjectRole(req: Request, h: Hierarchy, pk: int): (r: Dispatch<()>)
    requires Wf(h)
    ensures req.isSuperAdmin ==> r.Proceed?
    ensures r.Proceed? <==>
      req.isSuperAdmin || HasProjectRole(OfUser(req.roles, req.user), {ProjectManager}, pk) ||
      (pk in h.projects && HasOrgRole(OfUser(req.roles, req.user), {OrganizationAdmin}, h.projects[pk].organization))
    ensures r.Failure? <==>
      !req.isSuperAdmin && !HasProjectRole(OfUser(req.roles, req.user), {ProjectManager}, pk) && pk !in h.projects
    ensures !r.NotFoundResponse?
  {
    var mine := OfUser(req.roles, req.user);
    if req.isSuperAdmin then Proceed(())
    else if HasProjectRole(mine, {ProjectManager}, pk) then Proceed(())
    else if pk !in h.projects then Failure
    else if HasOrgRole(mine, {OrganizationAdmin}, h.projects[pk].organization) then Proceed(())
    else PermissionDenied
  }

  /** ReadonlyProjectLevelRoleMixin: the flag is `is_donor_only`. */
  function ReadonlyProjectLevel(req: Request, h: Hierarchy, pk: int): (r: Dispatch<bool>)
    requires Wf(h)
    ensures r == Proceed(false) <==>
      req.isSuperAdmin || HasProjectRole(req.roles, {ProjectManager}, pk) ||
      (pk in h.projects && HasOrgRole(req.roles, {OrganizationAdmin}, h.projects[pk].organization))
    ensures r == Proceed(true) <==>
      !req.isSuperAdmin && !HasProjectRole(req.roles, {ProjectManager}, pk) && pk in h.projects &&
      !HasOrgRole(req.roles, {OrganizationAdmin}, h.projects[pk].organization) &&
      HasProjectRole(req.roles, {ProjectDonor}, pk)
    ensures r.Failure? <==>
      !req.isSuperAdmin && !HasProjectRole(req.roles, {ProjectManager}, pk) && pk !in h.projects
    ensures !r.NotFoundResponse?
  {
    if req.isSuperAdmin then Proceed(false)
    else if HasProjectRole(req.roles, {ProjectManager}, pk) then Proceed(false)
    else if pk !in h.projects then Failure
    else if HasOrgRole(req.roles, {OrganizationAdmin}, h.projects[pk].organization) then Proceed(false)
    // line 171 repeats the Project Manager test, which cannot succeed here
    else if HasProjectRole(req.roles, {ProjectManager}, pk) then Proceed(false)
    else if HasProjectRole(req.roles, {ProjectDonor}, pk) then Proceed(true)
    else PermissionDenied
  }

  /** ReadonlySiteLevelRoleMixin on site `pk`: the flag is `is_donor_only`.
    * Region roles get read-only access; site roles, PMs and Org Admins get
    * full access. */
  function ReadonlySiteLevel(req: Request, h: Hierarchy, pk: int): (r: Dispatch<bool>)
    requires Wf(h)
    ensures !r.Failure?
    ensures r.NotFoundResponse? <==> !req.isSuperAdmin && pk !in h.sites
    ensures r == Proceed(false) <==>
      req.isSuperAdmin ||
      (pk in h.sites &&
       var s := h.sites[pk];
       var mine := OfUser(req.roles, req.user);
       HasOrgRole(mine, {OrganizationAdmin}, h.projects[s.project].organization) ||
       HasProjectRole(mine, {ProjectManager}, s.project) ||
       (!RegionMatch(req.roles, RegionRoles, h, s) && SiteMatch(req.roles, SiteRoles, s, pk)))
    ensures r == Proceed(true) <==>
      !req.isSuperAdmin && pk in h.sites &&
      var s := h.sites[pk];
      var mine := OfUser(req.roles, req.user);
      !HasOrgRole(mine, {OrganizationAdmin}, h.projects[s.project].organization) &&
      !HasProjectRole(mine, {ProjectManager}, s.project) &&
      (RegionMatch(req.roles, RegionRoles, h, s) ||
       (!SiteMatch(req.roles, SiteRoles, s, pk) && HasProjectRole(req.roles, {ProjectDonor}, s.project)))
  {
    if req.isSuperAdmin then Proceed(false)
    else if pk !in h.sites then NotFoundResponse
    else
      var s := h.sites[pk];
      var mine := OfUser(req.roles, req.user);
      if HasOrgRole(mine, {OrganizationAdmin}, h.projects[s.project].organization) then Proceed(false)
      else if HasProjectRole(mine, {ProjectManager}, s.project) then Proceed(false)
      else if s.region.Some? && HasRegionRoleIn(req.roles, RegionRoles, h.regions[s.region.value].ancestors) then
        Proceed(true)
      else if s.region.None? && HasNullRegionRole(req.roles, RegionRoles) then Proceed(true)
      else if s.parent.Some? && HasSiteRoleIn(req.roles, SiteRoles, s.ancestors) then Proceed(false)
      else if s.parent.None? && HasSiteRole(req.roles, SiteRoles, pk) then Proceed(false)
      else if HasProjectRole(req.roles, {ProjectDonor}, s.project) then Proceed(true)
      else PermissionDenied
  }

  /** SiteRoleMixin on site `pk`: the flag is `is_supervisor_only`. There is
    * no donor branch. */
  function SiteRole(req: Request, h: Hierarchy, pk: int): (r: Dispatch<bool>)
    requires Wf(h)
    ensures !r.NotFoundResponse?
    ensures r.Failure? <==> !req.isSuperAdmin && pk !in h.sites
    ensures r == Proceed(false) <==>
      req.isSuperAdmin ||
      (pk in h.sites &&
       (HasOrgRole(req.roles, {OrganizationAdmin}, h.projects[h.sites[pk].project].organization) ||
        HasProjectRole(req.roles, {ProjectManager}, h.sites[pk].project)))
    ensures r == Proceed(true) <==>
      !req.isSuperAdmin && pk in h.sites &&
      var s := h.sites[pk];
      !HasOrgRole(req.roles, {OrganizationAdmin}, h.projects[s.project].organization) &&
      !HasProjectRole(req.roles, {ProjectManager}, s.project) &&
      (RegionMatch(req.roles, RegionRoles, h, s) || SiteMatch(req.roles, SiteRoles, s, pk))
  {
    if req.isSuperAdmin then Proceed(false)
    else if pk !in h.sites then Failure
    else
      var s := h.sites[pk];
      if HasOrgRole(req.roles, {OrganizationAdmin}, h.projects[s.project].organization) then Proceed(false)
      else if HasProjectRole(req.roles, {ProjectManager}, s.project) then Proceed(false)
      else if s.region.Some? && HasRegionRoleIn(req.roles, RegionRoles, h.regions[s.region.value].ancestors) then
        Proceed(true)
      else if s.region.None? && HasNullRegionRole(req.roles, RegionRoles) then Proceed(true)
      else if s.parent.Some? && HasSiteRoleIn(req.roles, SiteRoles, s.ancestors) then Proceed(true)
      else if s.parent.None? && HasSiteRole(req.roles, SiteRoles, pk) then Proceed(true)
      else PermissionDenied
  }

  /** For a site with no region, a requester whose only role is a Region
    * Supervisor/Reviewer role is admitted (read-only) by the site-level
    * mixins exactly when that role's own region is null. */
  lemma {:induction false} NullRegionMatchesRegionlessSite(req: Request, h: Hierarchy, pk: int, role: Role)
    requires Wf(h) && pk in h.sites && h.sites[pk].region.None?
    requires !req.isSuperAdmin && req.roles == [role] && role.group in RegionRoles
    ensures ReadonlySiteLevel(req, h, pk).Proceed? <==> role.region.None?
    ensures ReadonlySiteLevel(req, h, pk).Proceed? ==> ReadonlySiteLevel(req, h, pk) == Proceed(true)
    ensures SiteRole(req, h, pk).Proceed? <==> role.region.None?
    ensures SiteRole(req, h, pk).Proceed? ==> SiteRole(req, h, pk) == Proceed(true)
  {
    var s := h.sites[pk];
    assert forall x :: x in req.roles <==> x == role;
    assert forall x :: x in OfUser(req.roles, req.user) ==> x == role;
    assert RegionMatch(req.roles, RegionRoles, h, s) <==> role.region.None?;
    assert !SiteMatch(req.roles, SiteRoles, s, pk);
    assert !HasProjectRole(req.roles, {ProjectDonor}, s.project);
  }

  /** SiteDeleteRoleMixin on site `pk`: PM of the site's project or Org Admin
    * of its organization, nothing below. */
  function SiteDeleteRole(req: Request, h: Hierarchy, pk: int): (r: Dispatch<()>)
    requires Wf(h)
    ensures !r.NotFoundResponse?
    ensures r.Failure? <==> !req.isSuperAdmin && pk !in h.sites
    ensures r.Proceed? <==>
      req.isSuperAdmin ||
      (pk in h.sites &&
       (HasProjectRole(OfUser(req.roles, req.user), {ProjectManager}, h.sites[pk].project) ||
        HasOrgRole(OfUser(req.roles, req.user), {OrganizationAdmin}, h.projects[h.sites[pk].project].organization)))
  {
    var mine := OfUser(req.roles, req.user);
    if req.isSuperAdmin then Proceed(())
    else if pk !in h.sites then Failure
    else
      var project := h.sites[pk].project;
      if HasProjectRole(mine, {ProjectManager}, project) then Proceed(())
      else if HasOrgRole(mine, {OrganizationAdmin}, h.projects[project].organization) then Proceed(())
      else PermissionDenied
  }

  /** ProjectRoleMixinDeleteView on project `pk`: Org Admin only. */
  function ProjectDeleteRole(req: Request, h: Hierarchy, pk: int): (r: Dispatch<()>)
    requires Wf(h)
    ensures !r.NotFoundResponse?
    ensures r.Failure? <==> !req.isSuperAdmin && pk !in h.projects
    ensures r.Proceed? <==>
      req.isSuperAdmin ||
      (pk in h.projects && HasOrgRole(OfUser(req.roles, req.user), {OrganizationAdmin}, h.projects[pk].organization))
  {
    if req.isSuperAdmin then Proceed(())
    else if pk !in h.projects then Failure
    else if HasOrgRole(OfUser(req.roles, req.user), {OrganizationAdmin}, h.projects[pk].organization) then Proceed(())
    else PermissionDenied
  }

  lemma {:induction false} OfUserIsSubset(roles: seq<Role>, user: int, gs: set<Group>, x: int)
    ensures HasOrgRole(OfUser(roles, user), gs, x) ==> HasOrgRole(roles, gs, x)
    ensures HasProjectRole(OfUser(roles, user), gs, x) ==> HasProjectRole(roles, gs, x)
  {
  }

  /** Deletion is stricter than access: whoever may delete a site has full
    * (not supervisor-only) access to it, and whoever may delete a project
    * may manage it. */
  lemma {:induction false} DeletionIsStricterThanAccess(req: Request, h: Hierarchy, pk: int)
    requires Wf(h)
    ensures SiteDeleteRole(req, h, pk).Proceed? ==> SiteRole(req, h, pk) == Proceed(false)
    ensures ProjectDeleteRole(req, h, pk).Proceed? ==> ProjectRole(req, h, pk).Proceed?
  {
    if pk in h.sites {
      OfUserIsSubset(req.roles, req.user, {ProjectManager}, h.sites[pk].project);
      OfUserIsSubset(req.roles, req.user, {OrganizationAdmin}, h.projects[h.sites[pk].project].organization);
    }
  }

  /** A Project Manager of the project who is not an Organization Admin of
    * its organization may manage it but may not delete it. */
  lemma ProjectManagerCannotDeleteProject(req: Request, h: Hierarchy, pk: int)
    requires Wf(h) && pk in h.projects && !req.isSuperAdmin
    requires HasProjectRole(OfUser(req.roles, req.user), {ProjectManager}, pk)
    requires !HasOrgRole(OfUser(req.roles, req.user), {OrganizationAdmin}, h.projects[pk].organization)
    ensures ProjectRole(req, h, pk) == Proceed(())
    ensures ProjectDeleteRole(req, h, pk) == PermissionDenied
  {
  }

  /** `m` is the role of a PM of `t`'s project or of an Org Admin of `t`'s
    * organization. */
  predicate ManagesScopeOf(m: Role, t: Role)
  {
    (m.group == ProjectManager && m.project == t.project) ||
    (m.group == OrganizationAdmin && m.organization == t.organization)
  }

  /** EndRoleMixin: may the requester end the role with id `pk`? `rows` is
    * the UserRole table by primary key. */
  function EndRole(req: Request, rows: map<int, Role>, pk: int): (r: Dispatch<()>)
    ensures !r.NotFoundResponse?
    ensures r.Failure? <==> !req.isSuperAdmin && pk !in rows
    ensures r.Proceed? <==>
      req.isSuperAdmin ||
      (pk in rows &&
       var t := rows[pk];
       (t.group == ProjectManager &&
        exists m :: m in req.roles && m.group == OrganizationAdmin && m.organization == t.organization) ||
       (t.group in {SiteSupervisor, Reviewer, RegionSupervisor, RegionReviewer} &&
        exists m :: m in req.roles && ManagesScopeOf(m, t)))
  {
    if req.isSuperAdmin then Proceed(())
    else if pk !in rows then Failure
    else
      var t := rows[pk];
      var byOrgAdmin := exists m :: m in req.roles && m.group == OrganizationAdmin && m.organization == t.organization;
      var byManager := exists m :: ManagesScopeOf(m, t) && m in req.roles;
      if t.group == ProjectManager then
        (if byOrgAdmin then Proceed(()) else PermissionDenied)
      else if t.group == SiteSupervisor || t.group == Reviewer then
        (if byManager then Proceed(()) else PermissionDenied)
      else if GroupName(t.group) == "Region Supervisor" || GroupName(t.group) == "Region Reviewer" then
        (if byManager then Proceed(()) else PermissionDenied)
      else PermissionDenied
  }

  /** Roles of the other kinds (Org Admin, Donor, Unassigned, ...) can be
    * ended only by a super admin. */
  lemma EndRoleOtherKindsDenied(req: Request, rows: map<int, Role>, pk: int)
    requires !req.isSuperAdmin && pk in rows
    requires rows[pk].group !in {ProjectManager, SiteSupervisor, Reviewer, RegionSupervisor, RegionReviewer}
    ensures EndRole(req, rows, pk) == PermissionDenied
  {
  }

  /** The keyword flags ConditionalFormMixin passes: `is_read_only`, and
    * `is_doner` on the paths that pass it (None where it is not passed). */
  datatype FormAccess = FormAccess(readOnly: bool, isDonor: Option<bool>)

  /** The project a form belongs to: its site's project, else its own. */
  function FormProject(h: Hierarchy, id: int): (r: Option<int>)
    requires Wf(h) && id in h.forms
    ensures r.Some? ==> r.value in h.projects
    ensures r.None? <==> h.forms[id].site.None? && h.forms[id].project.None?
  {
    var f := h.forms[id];
    if f.site.Some? then
      var s := f.site.value;
      assert s in h.sites;
      Some(h.sites[s].project)
    else f.project
  }

  /** ConditionalFormMixin on form `fsxfId`. */
  function ConditionalForm(req: Request, h: Hierarchy, fsxfId: int): (r: Dispatch<FormAccess>)
    requires Wf(h)
    ensures req.isSuperAdmin ==> r == Proceed(FormAccess(false, None))
    ensures r.NotFoundResponse? <==> !req.isSuperAdmin && fsxfId !in h.forms
    ensures r.Failure? <==> !req.isSuperAdmin && fsxfId in h.forms && FormProject(h, fsxfId).None?
    ensures r.Proceed? && !req.isSuperAdmin ==>
      var f := h.forms[fsxfId];
      var p := FormProject(h, fsxfId).value;
      var o := h.projects[p].organization;
      // full access: Org Admin, the site's Reviewer, PM, or a (Region) Reviewer of the project
      (!r.flags.readOnly <==>
        HasOrgRole(req.roles, {OrganizationAdmin}, o) ||
        (f.site.Some? && HasSiteRole(req.roles, {Reviewer}, f.site.value)) ||
        HasProjectRole(req.roles, {ProjectManager}, p) ||
        HasProjectRole(req.roles, {Reviewer, RegionReviewer}, p)) &&
      // `is_doner` is passed on the later paths and is true iff the requester is a Donor of the project
      (r.flags.isDonor.Some? ==> (r.flags.isDonor.value <==> HasProjectRole(req.roles, {ProjectDonor}, p)))
    ensures r.PermissionDenied? <==>
      !req.isSuperAdmin && fsxfId in h.forms && FormProject(h, fsxfId).Some? &&
      var f := h.forms[fsxfId];
      var p := FormProject(h, fsxfId).value;
      !HasOrgRole(req.roles, {OrganizationAdmin}, h.projects[p].organization) &&
      !(f.site.Some? && HasSiteRole(req.roles, {Reviewer}, f.site.value)) &&
      !HasProjectRole(req.roles, {ProjectManager, Reviewer, RegionReviewer, ProjectDonor, SiteSupervisor, RegionSupervisor}, p) &&
      !(f.site.Some? && HasSiteRole(req.roles, {SiteSupervisor}, f.site.value))
  {
    if req.isSuperAdmin then Proceed(FormAccess(false, None))
    else if fsxfId !in h.forms then NotFoundResponse
    else
      var f := h.forms[fsxfId];
      match FormProject(h, fsxfId)
      case None => Failure
      case Some(p) =>
        if HasOrgRole(req.roles, {OrganizationAdmin}, h.projects[p].organization) then Proceed(FormAccess(false, None))
        else if f.site.Some? && HasSiteRole(req.roles, {Reviewer}, f.site.value) then Proceed(FormAccess(false, None))
        else if HasProjectRole(req.roles, {ProjectManager}, p) then Proceed(FormAccess(false, None))
        else
          var donor := HasProjectRole(req.roles, {ProjectDonor}, p);
          var userRole := if f.site.Some? then HasSiteRole(req.roles, {SiteSupervisor}, f.site.value) || donor
                          else donor;
          var isDoner := if f.site.Some? then userRole && donor else userRole;
          if HasProjectRole(req.roles, {Reviewer, RegionReviewer}, p) then Proceed(FormAccess(false, Some(isDoner)))
          else if userRole then Proceed(FormAccess(true, Some(isDoner)))
          else if HasProjectRole(req.roles, {SiteSupervisor, RegionSupervisor}, p) then Proceed(FormAccess(true, Some(isDoner)))
          else PermissionDenied
  }

  /** FormMixin on form `fsxfId`: the site's Site Supervisor (group 3), the
    * project's PM (group 2) or the organization's Org Admin (group 1). */
  function FormRole(req: Request, h: Hierarchy, fsxfId: int): (r: Dispatch<()>)
    requires Wf(h)
    ensures r.NotFoundResponse? <==> !req.isSuperAdmin && fsxfId !in h.forms
    ensures r.Failure? <==>
      !req.isSuperAdmin && fsxfId in h.forms && h.forms[fsxfId].site.None? && h.forms[fsxfId].project.None?
    ensures r.Proceed? <==>
      req.isSuperAdmin ||
      (fsxfId in h.forms && FormProject(h, fsxfId).Some? &&
       var f := h.forms[fsxfId];
       var p := FormProject(h, fsxfId).value;
       (f.site.Some? && HasSiteRole(req.roles, {SiteSupervisor}, f.site.value)) ||
       HasProjectRole(req.roles, {ProjectManager}, p) ||
       HasOrgRole(req.roles, {OrganizationAdmin}, h.projects[p].organization))
  {
    if req.isSuperAdmin then Proceed(())
    else if fsxfId !in h.forms then NotFoundResponse
    else
      var f := h.forms[fsxfId];
      if f.site.Some? && HasSiteRole(req.roles, {SiteSupervisor}, f.site.value) then Proceed(())
      else match FormProject(h, fsxfId)
        case None => Failure
        case Some(p) =>
          if HasProjectRole(req.roles, {ProjectManager}, p) then Proceed(())
          else if HasOrgRole(req.roles, {OrganizationAdmin}, h.projects[p].organization) then Proceed(())
          else PermissionDenied
  }

  /** FullMapViewMixin: any role of group 7, 1 or 2 held by the requester. */
  function FullMapView(req: Request): (r: Dispatch<()>)
    ensures r.Proceed? || r.PermissionDenied?
    ensures r.Proceed? <==>
      req.isSuperAdmin ||
      exists m :: m in req.roles && m.user == req.user && m.group in {ProjectDonor, OrganizationAdmin, ProjectManager}
  {
    if req.isSuperAdmin then Proceed(())
    else if HasGroup(OfUser(req.roles, req.user), {ProjectDonor, OrganizationAdmin, ProjectManager}) then Proceed(())
    else PermissionDenied
  }

  /** Granting never depends on a role being absent: a requester who is
    * admitted keeps being admitted when more roles are added, although a flag
    * may change (a Donor who also becomes PM loses `is_donor_only`). */
  lemma {:induction false} MoreRolesKeepAccess(req: Request, extra: seq<Role>, h: Hierarchy, pk: int)
    requires Wf(h)
    ensures ProjectRole(req, h, pk).Proceed? ==> ProjectRole(req.(roles := req.roles + extra), h, pk).Proceed?
    ensures ReadonlyProjectLevel(req, h, pk).Proceed? ==>
            ReadonlyProjectLevel(req.(roles := req.roles + extra), h, pk).Proceed?
    ensures SiteRole(req, h, pk).Proceed? ==> SiteRole(req.(roles := req.roles + extra), h, pk).Proceed?
  {
    var more := req.roles + extra;
    forall x | x in req.roles ensures x in more { }
    forall x | x in OfUser(req.roles, req.user) ensures x in OfUser(more, req.user) { }
  }
}
