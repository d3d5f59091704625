/** The group-name based view guards of fieldsight/mixins.py: the USURPERS
  * table, `group_required` and the mixins built on them, and the ownership
  * mixins that compare the current role's scope with the URL id. The
  * `login_required` wrapper some of them sit behind runs before `dispatch`
  * and is not part of this model. */
module AccessMixins {
  import opened Common

  /** What these guards read from the request: authentication, the
    * middleware's `is_super_admin`, `request.role` (None when the middleware
    * set none; following it then raises), `request.organization` and
    * `request.project`. */
  datatype SessionRequest = SessionRequest(user: int, authenticated: bool, isSuperAdmin: bool,
                                           role: Option<Role>, organization: Option<int>, project: Option<int>)

  /** The USURPERS table: the group names admitted under each key. */
  function Usurpers(key: string): (r: Option<seq<string>>)
    ensures r.Some? <==> key in {"Site", "KoboForms", "Project", "Reviewer", "Organization", "admin"}
  {
    if key == "Site" then Some(["Reviewer", "Site Supervisor", "Project Manager", "Reviewer", "Organization Admin", "Super Admin"])
    else if key == "KoboForms" then Some(["Project Manager", "Reviewer", "Organization Admin", "Super Admin"])
    else if key == "Project" then Some(["Project Manager", "Organization Admin", "Super Admin"])
    else if key == "Reviewer" then Some(["Project Manager", "Reviewer", "Organization Admin", "Super Admin"])
    else if key == "Organization" then Some(["Organization Admin", "Super Admin"])
    else if key == "admin" then Some(["Super Admin"])
    else None
  }

  /** `USURPERS.get(key, [])`. */
  function Admitted(key: string): seq<string>
  {
    match Usurpers(key) case Some(names) => names case None => []
  }

  /** `group_required(key)`, and the mixins that test their own key the same
    * way: SiteMixin ('Site'), ProjectMixin ('Project'), KoboFormsMixin
    * ('KoboForms'), OrganizationMixin ('Organization') and SuperAdminMixin
    * ('admin'). */
  function GroupRequired(req: SessionRequest, key: string): (r: Dispatch<()>)
    ensures r.Proceed? <==> req.authenticated && req.role.Some? && GroupName(req.role.value.group) in Admitted(key)
    ensures r.Failure? <==> req.authenticated && req.role.None?
    ensures !req.authenticated ==> r.PermissionDenied?
  {
    if !req.authenticated then PermissionDenied
    else if req.role.None? then Failure
    else if GroupName(req.role.value.group) in Admitted(key) then Proceed(())
    else PermissionDenied
  }

  /** An unknown key admits nobody. */
  lemma UnknownKeyDeniesEveryone(req: SessionRequest, key: string)
    requires Usurpers(key).None?
    ensures !GroupRequired(req, key).Proceed?
  {
  }

  /** 'Super Admin' is in every list, and the lists are nested:
    * admin, Organization, Project, KoboForms, Site, with Reviewer the same
    * set as KoboForms. */
  lemma UsurpersAreNested()
    ensures forall k :: k in {"Site", "KoboForms", "Project", "Reviewer", "Organization", "admin"} ==> "Super Admin" in Admitted(k)
    ensures forall n :: n in Admitted("admin") ==> n in Admitted("Organization")
    ensures forall n :: n in Admitted("Organization") ==> n in Admitted("Project")
    ensures forall n :: n in Admitted("Project") ==> n in Admitted("KoboForms")
    ensures forall n :: n in Admitted("KoboForms") ==> n in Admitted("Site")
    ensures forall n :: n in Admitted("Reviewer") <==> n in Admitted("KoboForms")
  {
  }

  /** So a request admitted under a narrower key is admitted under every
    * wider one. */
  lemma {:induction false} WiderKeyAdmitsMore(req: SessionRequest)
    ensures GroupRequired(req, "admin").Proceed? ==> GroupRequired(req, "Organization").Proceed?
    ensures GroupRequired(req, "Organization").Proceed? ==> GroupRequired(req, "Project").Proceed?
    ensures GroupRequired(req, "Project").Proceed? ==> GroupRequired(req, "KoboForms").Proceed?
    ensures GroupRequired(req, "KoboForms").Proceed? ==> GroupRequired(req, "Site").Proceed?
  {
    UsurpersAreNested();
  }

  /** Which groups the 'Site' key admits, in terms of the role kinds: Site
    * Supervisors are admitted, Region roles and Donors are not. */
  lemma SiteKeyGroups(req: SessionRequest)
    requires req.authenticated && req.role.Some?
    ensures GroupRequired(req, "Site").Proceed? <==>
      req.role.value.group in {Reviewer, SiteSupervisor, ProjectManager, OrganizationAdmin, SuperAdmin}
  {
  }

  /** `ReviewerMixin`: only a super admin passes; the other branches are
    * commented out in the source. */
  function ReviewerMixin(req: SessionRequest): (r: Dispatch<()>)
    ensures r.Proceed? <==> req.authenticated && req.isSuperAdmin
    ensures !r.Proceed? ==> r.PermissionDenied?
  {
    if req.authenticated && req.isSuperAdmin then Proceed(()) else PermissionDenied
  }

  /** `MyOwnOrganizationMixin`: a Super Admin role, or an Org Admin role whose
    * organization is `int(pk)` (pk defaults to '0'). */
  function MyOwnOrganization(req: SessionRequest, pk: Option<string>): (r: Dispatch<()>)
    ensures r.Proceed? <==> (req.authenticated && req.role.Some? &&
      (req.role.value.group == SuperAdmin ||
       (req.role.value.group == OrganizationAdmin && req.role.value.organization.Some? &&
        ParseInt(if pk.Some? then pk.value else "0") == req.role.value.organization)))
    ensures r.Failure? <==> (req.authenticated &&
      (req.role.None? ||
       (req.role.value.group == OrganizationAdmin &&
        (req.role.value.organization.None? || ParseInt(if pk.Some? then pk.value else "0").None?))))
    ensures !req.authenticated ==> r.PermissionDenied?
  {
    if !req.authenticated then PermissionDenied
    else if req.role.None? then Failure
    else
      var role := req.role.value;
      if role.group == SuperAdmin then Proceed(())
      else if role.group == OrganizationAdmin then
        if role.organization.None? then Failure
        else match ParseInt(if pk.Some? then pk.value else "0")
          case None => Failure
          case Some(n) => if role.organization.value == n then Proceed(()) else PermissionDenied
      else PermissionDenied
  }

  /** `MyOwnProjectMixin`: a Super Admin role; an Org Admin role whose
    * organization owns project pk; a Reviewer or PM role whose project is
    * pk. An Org Admin of another organization falls through to the
    * Reviewer/PM test and is denied. */
  function MyOwnProject(req: SessionRequest, h: Hierarchy, pk: Option<string>): (r: Dispatch<()>)
    ensures !req.authenticated ==> r.PermissionDenied?
    ensures req.authenticated && req.role.Some? && req.role.value.group == SuperAdmin ==> r.Proceed?
    ensures req.authenticated && req.role.Some? && req.role.value.group == OrganizationAdmin ==>
      match LookupKey(if pk.Some? then pk else Some("0"), h.projects)
      case Found(p) =>
        (r.Proceed? <==> req.role.value.organization == Some(h.projects[p].organization)) &&
        (r.Proceed? || r.PermissionDenied?)
      case _ => r.Failure?
    ensures req.authenticated && req.role.Some? && req.role.value.group in {Reviewer, ProjectManager} ==>
      if req.role.value.project.None? then r.Failure?
      else match ParseInt(if pk.Some? then pk.value else "0")
        case None => r.Failure?
        case Some(n) => (r.Proceed? <==> req.role.value.project == Some(n)) && (r.Proceed? || r.PermissionDenied?)
    ensures (req.authenticated && req.role.Some? &&
             req.role.value.group !in {SuperAdmin, OrganizationAdmin, Reviewer, ProjectManager}) ==> r.PermissionDenied?
  {
    if !req.authenticated then PermissionDenied
    else if req.role.None? then Failure
    else
      var role := req.role.value;
      if role.group == SuperAdmin then Proceed(())
      else if role.group == OrganizationAdmin then
        match LookupKey(if pk.Some? then pk else Some("0"), h.projects)
        case Found(p) =>
          if role.organization == Some(h.projects[p].organization) then Proceed(())
          else PermissionDenied
        case _ => Failure
      else if role.group in {Reviewer, ProjectManager} then
        if role.project.None? then Failure
        else match ParseInt(if pk.Some? then pk.value else "0")
          case None => Failure
          case Some(n) => if role.project.value == n then Proceed(()) else PermissionDenied
      else PermissionDenied
  }

  /** `OrganizationOrProjectRequiredMixin`. `check` is None when the view has
    * no `check` attribute, otherwise the value of that hook on
    * `request.organization` (called on the project never: both operands of
    * the source's `or` call it on the organization). With a hook and no
    * organization the call raises. */
  function OrganizationOrProjectRequired(req: SessionRequest, check: Option<bool>): (r: Dispatch<()>)
    ensures req.organization.None? && req.project.None? ==> r.PermissionDenied?
    ensures r.Proceed? <==> (req.organization.Some? || req.project.Some?) &&
                            (check.None? || (req.organization.Some? && check.value))
    ensures r.Failure? <==> req.organization.None? && req.project.Some? && check.Some?
  {
    if req.organization.None? && req.project.None? then PermissionDenied
    else if check.Some? then
      if req.organization.None? then Failure
      else if !check.value || !check.value then PermissionDenied
      else Proceed(())
    else Proceed(())
  }

  /** A project-scoped request passes a view with a check hook only if it
    * also has an organization: the hook is never asked about the project. */
  lemma ProjectAloneNeverPassesACheck(req: SessionRequest, c: bool)
    requires req.organization.None? && req.project.Some?
    ensures !OrganizationOrProjectRequired(req, Some(c)).Proceed?
  {
  }

  /** `OwnerMixin`: `profiles` maps a UserProfile pk to its user. A missing
    * or unknown pk raises. */
  function Owner(req: SessionRequest, profiles: map<int, int>, pk: Option<string>): (r: Dispatch<()>)
    ensures r.Proceed? <==> req.authenticated && LookupKey(pk, profiles).Found? &&
                            profiles[LookupKey(pk, profiles).id] == req.user
    ensures req.authenticated && !LookupKey(pk, profiles).Found? ==> r.Failure?
    ensures !req.authenticated ==> r.PermissionDenied?
  {
    if !req.authenticated then PermissionDenied
    else match LookupKey(pk, profiles)
      case Found(id) => if profiles[id] == req.user then Proceed(()) else PermissionDenied
      case _ => Failure
  }
}
