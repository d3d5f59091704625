# FieldSight access core in Dafny

This project models the core of FieldSight, a Django/KoBoToolbox-based
field data collection platform, and proves properties of the model.

The centre of the model is the role-based access decision. A `UserRole`
ties a user to a group (Super Admin, Organization Admin, Project Manager,
Reviewer, Site Supervisor, Region Supervisor, Region Reviewer, Project
Donor, Staff Project Manager, Unassigned) and to a scope in the hierarchy
Organization, Project, Region (with parent regions), Site (with parent
sites). Every permission mixin and API permission class is a chain of
tests "does the requester hold a role of group g scoped to x", with super
admins checked first. A chain ends in one of four outcomes: proceed (with
the view's flag, such as `is_donor_only`), permission denied, a not-found
response, or an uncaught exception.

Around that core the model covers:

- the role store: `UserRole.clean`, the scope derivation of `save` and
  `update`, and the active-role queries;
- accepting an invitation, which expands it into roles with
  `get_or_create` and removes Unassigned roles;
- the "my roles" views and serializers, and the display rules they derive
  from roles;
- form sharing over an idempotent permission-grant store, and adding a
  language to a form;
- staff and attendance creation;
- export query and option building, the Mongo date format and the export
  progress list;
- site meta-attribute answers, their diffs and merges;
- the fv3 site views: create, update and soft delete;
- the project dashboard: charts sampled by `date_range`, activity totals,
  terms and labels, and breadcrumbs;
- form management serializers: the schedule duplicate check, level names,
  response counts and the sub-stage form swap;
- the region, username and bulk-edit forms;
- the `events` template context;
- the push-notification device endpoints.

Modelling conventions:

- `request.roles` is a sequence of role rows. `request.is_super_admin`,
  `request.role`, `request.group` and `request.organization` are inputs.
- The hierarchy is a set of maps with parent links. `get_parent_regions`
  and `get_parent_sites` are stored ancestor sets.
- Database tables are maps from row id to row, held in classes whose
  methods update them in place.
- Clocks, the Mongo aggregations, the request body and the settings are
  parameters.

Each module is named after the source file it models.

## Model

| member | source | states |
|---|---|---|
| AccessMixins.Usurpers | onadata/apps/fieldsight/mixins.py:292-301 | the table has exactly the six keys Site, KoboForms, Project, Reviewer, Organization and admin |
| AccessMixins.GroupRequired | onadata/apps/fieldsight/mixins.py:314-415 | passes iff the user is authenticated and the role's group name is listed under the key; a request without a role raises; an anonymous one is denied |
| AccessMixins.UnknownKeyDeniesEveryone | onadata/apps/fieldsight/mixins.py:411 | `USURPERS.get(key, [])` admits nobody for a key not in the table |
| AccessMixins.UsurpersAreNested | onadata/apps/fieldsight/mixins.py:292-301 | Super Admin is in every list; admin ⊆ Organization ⊆ Project ⊆ KoboForms ⊆ Site, and Reviewer lists the same groups as KoboForms |
| AccessMixins.WiderKeyAdmitsMore | onadata/apps/fieldsight/mixins.py:314-415 | a request admitted under a narrower key is admitted under every wider key |
| AccessMixins.SiteKeyGroups | onadata/apps/fieldsight/mixins.py:294-320 | the Site key admits exactly Reviewer, Site Supervisor, Project Manager, Organization Admin and Super Admin roles |
| AccessMixins.ReviewerMixin | onadata/apps/fieldsight/mixins.py:330-353 | only an authenticated super admin passes; everyone else is denied |
| AccessMixins.MyOwnOrganization | onadata/apps/fieldsight/mixins.py:372-381 | passes iff the role is Super Admin, or Org Admin of the organization `int(pk)` (pk defaults to '0'); a missing role, organization or unparsable pk raises |
| AccessMixins.MyOwnProject | onadata/apps/fieldsight/mixins.py:383-394 | Super Admin passes; an Org Admin passes iff the project pk belongs to their organization; a Reviewer or PM passes iff their project is pk; an unknown pk raises |
| AccessMixins.OrganizationOrProjectRequired | onadata/apps/fieldsight/mixins.py:36-43 | denied without organization and project; with a check hook, passes only when the organization exists and the hook holds; the hook on a missing organization raises |
| AccessMixins.ProjectAloneNeverPassesACheck | onadata/apps/fieldsight/mixins.py:40-41 | a request with a project and no organization never passes a view that has a check hook |
| AccessMixins.Owner | onadata/apps/fieldsight/mixins.py:304-311 | passes iff the user is authenticated and owns the profile pk; an unknown pk raises; anonymous users are denied |
| RoleMixins.SameOrganizationProfile | onadata/apps/fieldsight/rolemixins.py:39-51 | never 404; a super admin, a missing, empty or '0' pk pass; otherwise passes iff the profile's user shares an organization (possibly null) with one of the request's roles; a pk that is not a number raises |
| RoleMixins.DifferenceOfDifferenceIsIntersection | onadata/apps/fieldsight/rolemixins.py:48 | `a - (a - b)` is the intersection of the two organization sets |
| RoleMixins.NullOrganizationIsShared | onadata/apps/fieldsight/rolemixins.py:46-50 | a target user and a requester who both hold a role without organization pass the check |
| RoleMixins.ProjectRole | onadata/apps/fieldsight/rolemixins.py:86-104 | passes iff super admin, a PM role of the user on project pk, or an Org Admin role of the user on the project's organization; an unknown project without a PM role raises; never 404 |
| RoleMixins.ReadonlyProjectLevel | onadata/apps/fieldsight/rolemixins.py:154-179 | full access (donor flag false) iff super admin, PM on pk or Org Admin of its organization; donor-only iff none of those and a Project Donor role on pk; the failure and denial cases stated exactly |
| RoleMixins.ReadonlySiteLevel | onadata/apps/fieldsight/rolemixins.py:182-240 | never raises; 404 iff not super admin and the site is unknown; full access and donor-only access each stated as one condition over Org Admin, PM, region and site roles |
| RoleMixins.SiteRole | onadata/apps/fieldsight/rolemixins.py:346-395 | never 404; raises iff the site is unknown (non super admin); full access iff super admin, Org Admin or PM above the site; supervisor-only access by region or site roles |
| RoleMixins.NullRegionMatchesRegionlessSite | onadata/apps/fieldsight/rolemixins.py:208-222 | for a site without region, a lone region role grants (limited) access iff the role's region is also null (also lines 366-381) |
| RoleMixins.SiteDeleteRole | onadata/apps/fieldsight/rolemixins.py:398-419 | passes iff super admin, or the user is PM of the site's project or Org Admin of its organization; an unknown site raises |
| RoleMixins.ProjectDeleteRole | onadata/apps/fieldsight/rolemixins.py:423-438 | passes iff super admin or the user is Org Admin of the project's organization; an unknown project raises |
| RoleMixins.OfUserIsSubset | onadata/apps/fieldsight/rolemixins.py:92-101 | a role query over the user's own roles implies the same query over all roles |
| RoleMixins.DeletionIsStricterThanAccess | onadata/apps/fieldsight/rolemixins.py:86-104 | whoever may delete a site has full site access; whoever may delete a project passes ProjectRoleMixin (also lines 346-438) |
| RoleMixins.ProjectManagerCannotDeleteProject | onadata/apps/fieldsight/rolemixins.py:86-104 | any PM of a project who is neither a super admin nor an Org Admin of its organization passes ProjectRoleMixin but is denied project deletion (also lines 423-438) |
| RoleMixins.EndRole | onadata/apps/fieldsight/rolemixins.py:682-707 | passes iff super admin, or the role to end is a PM role and the requester is Org Admin of its organization, or a site/region role whose scope the requester manages; an unknown role raises |
| RoleMixins.EndRoleOtherKindsDenied | onadata/apps/fieldsight/rolemixins.py:682-707 | ending any other kind of role is denied to everyone but a super admin |
| RoleMixins.FormProject | onadata/apps/fieldsight/rolemixins.py:617-622 | the form's project comes from its site or its own project, and is None iff it has neither |
| RoleMixins.ConditionalForm | onadata/apps/fieldsight/rolemixins.py:611-663 | super admin gets full access; 404 iff the form is unknown; raises iff the form has neither site nor project; full and supervisor-only access stated by role kind |
| RoleMixins.FormRole | onadata/apps/fieldsight/rolemixins.py:543-570 | 404 iff the form is unknown; raises iff it has neither site nor project; passes iff super admin, Site Supervisor of its site, PM of its project or Org Admin of its organization |
| RoleMixins.FullMapView | onadata/apps/fieldsight/rolemixins.py:749-760 | passes iff super admin or the user holds a Donor, Org Admin or PM role; otherwise denied |
| RoleMixins.MoreRolesKeepAccess | onadata/apps/fieldsight/rolemixins.py:86-104 | adding roles never takes access away in ProjectRoleMixin, ReadonlyProjectLevelRoleMixin or SiteRoleMixin (also lines 154-179, 346-395) |
| RoleApiPermissions.SiteChain | onadata/apps/fv3/role_api_permissions.py:306-348 | the branch chain shared by `check_site_permission`, `SitePermissions` and the retrieve action grants iff the single read-access condition on the site holds |
| RoleApiPermissions.CheckSitePermission | onadata/apps/fv3/role_api_permissions.py:294-348 | super admin passes; an unparsable pk raises; pk 0 is refused; an unknown site returns the 204 response; otherwise grants iff the roles read the site |
| RoleApiPermissions.HasWritePermissionInSite | onadata/apps/fv3/role_api_permissions.py:351-389 | super admin passes; an unparsable pk raises; pk 0 falls off the end (None); an unknown site returns 204; otherwise grants iff the roles may write the site |
| RoleApiPermissions.ReadOnlyKindsNeverWrite | onadata/apps/fv3/role_api_permissions.py:351-389 | Donors, Reviewers and Region Reviewers alone never get write permission on a site |
| RoleApiPermissions.WriteImpliesReadOnTopLevelSite | onadata/apps/fv3/role_api_permissions.py:294-389 | on a site without parent, write permission implies read permission |
| RoleApiPermissions.SubSiteSupervisorWritesWithoutReading | onadata/apps/fv3/role_api_permissions.py:294-389 | a supervisor of a sub-site gets write but not read permission on it (a witness on one concrete hierarchy) |
| RoleApiPermissions.CheckRegionalPerm | onadata/apps/fv3/role_api_permissions.py:392-431 | super admin passes; a missing or empty region is refused; an unparsable one raises; an unknown region returns 204; otherwise grants iff Org Admin, PM/Donor of the project, or a region role on an ancestor region |
| RoleApiPermissions.RegionalPermission | onadata/apps/fv3/role_api_permissions.py:434-441 | grants iff `check_regional_perm`'s result is truthy, so a 204 response also grants |
| RoleApiPermissions.UnknownRegionAdmitsEveryone | onadata/apps/fv3/role_api_permissions.py:403-439 | any request naming a region id that does not exist is admitted |
| RoleApiPermissions.RegionalPermissionIntended | onadata/apps/fv3/role_api_permissions.py:434-441 | grants iff `check_regional_perm` returned True itself |
| RoleApiPermissions.IntendedRegionalPermissionNeedsARole | onadata/apps/fv3/role_api_permissions.py:392-428 | under the corrected check, a non super admin is admitted only to an existing region and only with a qualifying role |
| RoleApiPermissions.SitePermissions | onadata/apps/fv3/role_api_permissions.py:164-225 | super admin passes; an unparsable pk raises; an unknown site is 404; otherwise grants iff the roles read the site |
| RoleApiPermissions.ProjectDashboardPermissions | onadata/apps/fv3/role_api_permissions.py:104-138 | the `project` query parameter is preferred to pk; unparsable raises, unknown is 404; otherwise grants iff Org Admin of its organization or a Project Manager or Project Donor role on it |
| RoleApiPermissions.ProjectRoleApiHasPermission | onadata/apps/fv3/role_api_permissions.py:17-72 | super admin passes; with a project parameter: unparsable raises, unknown is 404, otherwise grants iff Org Admin or PM/Donor of it; without one: no lookup keyword is 204, no object raises, and because `get_object()` runs the object check first, an object is granted iff the user is PM of its project or Org Admin of its organization, and raises (PermissionDenied or the object check's lookup) otherwise |
| RoleApiPermissions.ProjectRoleApiHasObjectPermission | onadata/apps/fv3/role_api_permissions.py:74-101 | super admin passes; no object is refused; otherwise grants iff the user is PM of the object's project or Org Admin of its organization |
| RoleApiPermissions.ObjectPermissionImpliesViewPermission | onadata/apps/fv3/role_api_permissions.py:17-101 | without the `project` parameter, the view check on an object grants exactly when the object check does |
| RoleApiPermissions.DonorPassesViewCheckOnly | onadata/apps/fv3/role_api_permissions.py:17-101 | a Project Donor passes `has_permission` when the project is named by the `project` parameter, but is refused `has_object_permission` |
| RoleApiPermissions.DonorRefusedOnObjectPath | onadata/apps/fv3/role_api_permissions.py:45-66 | without the `project` parameter the same Donor is stopped by `get_object()`'s object check, which raises |
| RoleApiPermissions.TeamCreationPermission | onadata/apps/fv3/role_api_permissions.py:545-559 | grants iff the user has a Super Admin role or owns no organization yet |
| RoleApiPermissions.SiteFormPermissions | onadata/apps/fv3/role_api_permissions.py:562-751 | 'list' is always allowed; 'create' dispatches on region, site or project parameter to the regional, site or project check; other actions are decided per site, super admin passing |
| RoleApiPermissions.SiteFormDonorExcluded | onadata/apps/fv3/role_api_permissions.py:562-751 | Donors alone can neither create at project level nor destroy |
| UserRoles.Clean | onadata/apps/userrole/models.py:49-73 | each error exactly when its group needs a scope field that is unset, checked in the code's order; "already exists" iff a stored row has the same user, group, project, region and site; None otherwise |
| UserRoles.EndedRoleStillBlocks | onadata/apps/userrole/models.py:69-73 | an ended role with the same key still makes `clean` fail, since the duplicate test ignores `ended_at` |
| UserRoles.Derive | onadata/apps/userrole/models.py:76-139 | the derived role keeps id, user, group and dates, and its references still resolve |
| UserRoles.SaveDerivation | onadata/apps/userrole/models.py:76-111 | raises iff a PM has no project, a site role no site or a region role no region; otherwise the result is in normal form (except donors), keeps identity and the scope field the group names; donor and Unassigned roles are kept as given |
| UserRoles.SaveDerivationIntended | onadata/apps/userrole/models.py:93-96 | with the donor branch matching 'Project Donor': a donor without project raises, and every saved role is in normal form |
| UserRoles.UpdateDerivation | onadata/apps/userrole/models.py:114-137 | identity kept; donor, Unassigned and Staff PM roles unchanged; every other derived role in normal form |
| UserRoles.DonorBranchIsDead | onadata/apps/userrole/models.py:93 | no group is named 'Project Doner' |
| UserRoles.DonorSaveKeepsStaleScope | onadata/apps/userrole/models.py:93-96 | a donor role with a site is saved unchanged and not in normal form, while the intended save clears the site |
| UserRoles.SaveFixesNormalForm | onadata/apps/userrole/models.py:76-111 | saving a role already in normal form leaves it unchanged |
| UserRoles.SaveIsIdempotent | onadata/apps/userrole/models.py:76-111 | saving twice derives the same role as saving once |
| UserRoles.SaveAndUpdateDifferOnlyForStaffManagers | onadata/apps/userrole/models.py:76-139 | `save` and `update` derive the same role except for Staff Project Managers with a scope, which only `save` clears |
| UserRoles.Upsert | onadata/apps/userrole/models.py:111 | after writing, the row is present, rows with other ids are kept and nothing else is added |
| UserRoles.RoleStore.Put | onadata/apps/userrole/models.py:111 | the table becomes the upsert of the row |
| UserRoles.UserRole.Save | onadata/apps/userrole/models.py:76-111 | succeeds iff the derivation does; then the instance holds the derived role and it is stored; on failure nothing is stored and only the fields assigned before the raise changed |
| UserRoles.UserRole.AssignForUpdate | onadata/apps/userrole/models.py:114-137 | the branch assignments succeed iff the update derivation does, and the instance then holds it; on failure only the PM branch's earlier assignments remain |
| UserRoles.UserRole.Update | onadata/apps/userrole/models.py:114-139 | as written it never succeeds: after the branch assignments, which the instance keeps, the base class's missing `update` raises |
| UserRoles.UserRole.UpdateIntended | onadata/apps/userrole/models.py:114-139 | corrected: succeeds iff the update derivation does, and then the derived row is stored; on failure the table is unchanged |
| UserRoles.IsActive | onadata/apps/userrole/models.py:141-143 | the count is positive iff the user has an active role of the named group |
| UserRoles.GetActiveRoles | onadata/apps/userrole/models.py:145-147 | exactly the user's roles that have not ended |
| UserRoles.GetActiveSiteRoles | onadata/apps/userrole/models.py:149-152 | exactly the user's active Site Supervisor roles on an existing active site |
| UserRoles.GetActiveSiteRolesCount | onadata/apps/userrole/models.py:154-156 | positive iff there is an active site role |
| UserRoles.GetActiveSiteRolesExists | onadata/apps/userrole/models.py:158-161 | true iff the user has an active Site Supervisor role on an active site or an active Region Supervisor role on an active region |
| UserRoles.GetRolesSupervisor | onadata/apps/userrole/models.py:163-167 | true iff one of the active site roles is in the project |
| UserRoles.ProjectManagers | onadata/apps/userrole/models.py:169-172 | exactly the active PM roles of the project |
| UserRoles.OrganizationAdmins | onadata/apps/userrole/models.py:174-177 | exactly the active Org Admin roles of the organization |
| UserRoles.CentralEngineers | onadata/apps/userrole/models.py:179-182 | exactly the active Reviewer roles of the project |
| UserRoles.EndedRowsAreInvisible | onadata/apps/userrole/models.py:141-182 | adding ended rows changes none of the active-role queries |
| UserRoles.UserRole.constructor | onadata/apps/userrole/models.py:19-28 | the instance holds exactly the given row |
| UserRoles.RoleStore.constructor | onadata/apps/userrole/models.py:19-28 | the table holds exactly the given rows |
| MyRoles.IsProjectManagerOrTeamAdmin | onadata/apps/fv3/viewsets/MyRolesViewset.py:31-43 | true iff the user has a PM or Donor role on the project while it is active, or an Org Admin role on its organization while that is active |
| MyRoles.RolesNamed | onadata/apps/fv3/viewsets/MyRolesViewset.py:47-53 | exactly the user's roles in the project whose group name is in the set |
| MyRoles.SiteNamesAreSupervisors | onadata/apps/fv3/viewsets/MyRolesViewset.py:53-58 | the names 'Site Supervisor'/'Site Reviewer' select only Site Supervisors (no group is called 'Site Reviewer'), and the region names select the two region groups |
| MyRoles.SupervisedSiteIds | onadata/apps/fv3/viewsets/MyRolesViewset.py:57-58 | the distinct (possibly null) sites of the user's Site Supervisor roles in the project |
| MyRoles.RegionIdsOf | onadata/apps/fv3/viewsets/MyRolesViewset.py:53-54 | exactly the regions of the user's region roles in the project |
| MyRoles.RegionSiteIds | onadata/apps/fv3/viewsets/MyRolesViewset.py:55 | exactly the sites whose region is one of those regions, in site-table order |
| MyRoles.MySiteIds | onadata/apps/fv3/viewsets/MyRolesViewset.py:46-62 | an id is listed iff it is a supervised site or a site in one of the user's regions; the list opens with the distinct supervised sites, one per Site Supervisor row, and every later entry is a site of a supervised region |
| MyRoles.SiteReachedTwiceIsListedTwice | onadata/apps/fv3/viewsets/MyRolesViewset.py:60 | a site both supervised and in a supervised region appears twice, since `chain` does not deduplicate |
| MyRoles.MyRolesCanCreateTeam | onadata/apps/fv3/viewsets/MyRolesViewset.py:67-79 | with a `profile` parameter the view fails; without one, `can_create_team` is true iff the user owns no organization |
| MyRoles.ProfileParameterAlwaysFails | onadata/apps/fv3/viewsets/MyRolesViewset.py:68-79 | even for an existing profile, `?profile=5` makes the view fail |
| MyRoles.MyRolesCanCreateTeamIntended | onadata/apps/fv3/viewsets/MyRolesViewset.py:67-79 | corrected: true iff no organization and no profile parameter; fails only for an unknown or unparsable profile |
| MyRoles.Invitation.constructor | onadata/apps/fv3/viewsets/MyRolesViewset.py:300 | an invitation holds its data and used flag |
| MyRoles.UserProfile.constructor | onadata/apps/fv3/viewsets/MyRolesViewset.py:304 | a profile holds its organization |
| MyRoles.Matching | onadata/apps/fv3/viewsets/MyRolesViewset.py:319-338 | exactly the rows that match the lookup fields of a `get_or_create` |
| MyRoles.GetOrCreate | onadata/apps/fv3/viewsets/MyRolesViewset.py:319-338 | one match: the table is unchanged and the call succeeds; several: MultipleObjectsReturned |
| MyRoles.GetOrCreateCreates | onadata/apps/fv3/viewsets/MyRolesViewset.py:319-338 | with no match: an unresolvable lookup fails; otherwise the new role is saved through `UserRole.save` and appended, or the save raises |
| MyRoles.GetOrCreateCovers | onadata/apps/fv3/viewsets/MyRolesViewset.py:319-338 | the table only grows, by at most one row; on success the lookup is covered; ids stay below the counter |
| MyRoles.ExpandAllSnoc | onadata/apps/fv3/viewsets/MyRolesViewset.py:315-338 | running one more lookup is the run so far followed by that `get_or_create`, unless the run already failed |
| MyRoles.ExpandAllStopsAtFailure | onadata/apps/fv3/viewsets/MyRolesViewset.py:315-338 | after a failure later lookups change nothing |
| MyRoles.ExpandAllAppends | onadata/apps/fv3/viewsets/MyRolesViewset.py:315-338 | the run only appends rows, each for the user and group of some lookup |
| MyRoles.ExpandAllKeepsIdsBelow | onadata/apps/fv3/viewsets/MyRolesViewset.py:315-338 | ids stay below the next id |
| MyRoles.ExpandAllCovers | onadata/apps/fv3/viewsets/MyRolesViewset.py:315-338 | a successful run covers every lookup |
| MyRoles.RegionKeys | onadata/apps/fv3/viewsets/MyRolesViewset.py:315-321 | one lookup per region, with the region's project and no site |
| MyRoles.SiteKeys | onadata/apps/fv3/viewsets/MyRolesViewset.py:325-329 | one lookup per site, in the given project |
| MyRoles.ProjectKeysMembers | onadata/apps/fv3/viewsets/MyRolesViewset.py:324-333 | a lookup is in the project loop's list iff it belongs to one of the projects |
| MyRoles.KeysOfInvitation | onadata/apps/fv3/viewsets/MyRolesViewset.py:312-338 | the lookups are: per region if the invitation has regions, else per project and site (or per project without sites), plus the organization lookup when there is no project |
| MyRoles.NotificationType | onadata/apps/fv3/viewsets/MyRolesViewset.py:346-410 | the log type per group and count (1, 2/26, 3/27, 4/28, 37/39, 38/40, 24, 25); None (a raise) for groups without a branch or an empty project list where the code indexes it |
| MyRoles.WithoutUnassigned | onadata/apps/fv3/viewsets/MyRolesViewset.py:308-310 | exactly the rows other than the user's Unassigned roles remain |
| MyRoles.KeysResolve | onadata/apps/fv3/viewsets/MyRolesViewset.py:312-338 | every lookup of a resolvable invitation resolves |
| MyRoles.UsedInvitationIsRefused | onadata/apps/fv3/viewsets/MyRolesViewset.py:299-302 | a used invitation gives 400 and changes nothing |
| MyRoles.AcceptedInvitationCoversEveryLookup | onadata/apps/fv3/viewsets/MyRolesViewset.py:292-420 | an accepted invitation is marked used, the profile has an organization, and every lookup of the invitation is covered by a role |
| MyRoles.AcceptingKeepsOtherRows | onadata/apps/fv3/viewsets/MyRolesViewset.py:308-338 | accepting keeps every row except the user's Unassigned roles |
| MyRoles.AcceptingReplacesUnassigned | onadata/apps/fv3/viewsets/MyRolesViewset.py:308-310 | when the user's first role is Unassigned, no Unassigned role of theirs remains |
| MyRoles.GetOrCreateIsIdempotent | onadata/apps/fv3/viewsets/MyRolesViewset.py:319-338 | repeating a successful `get_or_create` changes nothing |
| MyRoles.SitePairedWithForeignProjectDuplicates | onadata/apps/fv3/viewsets/MyRolesViewset.py:325-329 | a site of another project: the saved role moves to the site's project, so a second `get_or_create` adds a duplicate (concrete) |
| MyRoles.RerunCreatesNothing | onadata/apps/fv3/viewsets/MyRolesViewset.py:315-338 | when every lookup already matches exactly one row, the run changes nothing |
| MyRoles.AcceptInvite | onadata/apps/fv3/viewsets/MyRolesViewset.py:292-420 | the response, role table, profile organization, used flag and permission grant equal those of the function `AcceptSpec`; ids stay below the counter |
| MyRoles.Expand | onadata/apps/fv3/viewsets/MyRolesViewset.py:312-341 | the loops leave the table that `ExpandAll` over every lookup key gives, with ids below the counter |
| MyRoles.ExpandRegions | onadata/apps/fv3/viewsets/MyRolesViewset.py:315-321 | the region loop performs the region lookups in order |
| MyRoles.ExpandProjects | onadata/apps/fv3/viewsets/MyRolesViewset.py:324-333 | the project loop performs the project lookups in order |
| MyRoles.ExpandProject | onadata/apps/fv3/viewsets/MyRolesViewset.py:325-333 | one project's iteration: its site lookups, or the project-level lookup without sites |
| MyRoles.ExpandSites | onadata/apps/fv3/viewsets/MyRolesViewset.py:326-329 | the inner site loop performs one lookup per site |
| MyRoles.GetOrCreateRole | onadata/apps/fv3/viewsets/MyRolesViewset.py:319-338 | the store after the call is the table `GetOrCreate` gives |
| MyRolesSerializer.HasProjectAccess | onadata/apps/fv3/serializers/MyRolesSerializer.py:23-30 | true iff the role's group is Project Manager or Project Donor |
| MyRolesSerializer.ScopedLabel | onadata/apps/fv3/serializers/MyRolesSerializer.py:53-70 | no label iff the user manages the project or administers its organization; otherwise the fixed label for several scoped roles, the group of the single one, or a failure (DoesNotExist) when there is none |
| MyRolesSerializer.SingleRoleShowsItsGroup | onadata/apps/fv3/serializers/MyRolesSerializer.py:65-68 | with exactly one scoped role the label is that role's group name |
| MyRolesSerializer.TwoRolesShowFixedLabel | onadata/apps/fv3/serializers/MyRolesSerializer.py:65-66 | with two or more scoped roles the label is the fixed name, whatever their groups |
| MyRolesSerializer.RegionRole | onadata/apps/fv3/serializers/MyRolesSerializer.py:53-70 | a region's label over its region roles, with 'Region Supervisor' for several |
| MyRolesSerializer.SiteRole | onadata/apps/fv3/serializers/MyRolesSerializer.py:88-104 | a site's label over its site roles, with 'Site Supervisor' for several |
| MyRolesSerializer.Submissions | onadata/apps/fv3/serializers/MyRolesSerializer.py:106-110 | the total is at least each of the four counts and is zero iff all four are |
| MyRolesSerializer.StatusName | onadata/apps/fv3/serializers/MyRolesSerializer.py:116 | FORM_STATUS is defined exactly on the codes 0..3 |
| MyRolesSerializer.StatusCode | onadata/apps/fv3/serializers/MyRolesSerializer.py:116 | a code found for a name maps back to that name |
| MyRolesSerializer.StatusNameRoundTrip | onadata/apps/fv3/serializers/MyRolesSerializer.py:116 | name-to-code inverts code-to-name |
| MyRolesSerializer.Status | onadata/apps/fv3/serializers/MyRolesSerializer.py:112-118 | a status iff the site has instances and a known status code, and the name is that code's |
| MyRolesSerializer.Progress | onadata/apps/fv3/serializers/MyRolesSerializer.py:120-125 | a falsy (zero) progress is reported as 0, so the value is kept |
| MyRolesSerializer.ListedIsTheNameFilter | onadata/apps/fv3/serializers/MyRolesSerializer.py:178-185 | a role passes the queryset filter iff its group is listed with an active scope; a Reviewer role never passes |
| MyRolesSerializer.DistinctOnProject | onadata/apps/fv3/serializers/MyRolesSerializer.py:185 | a sublist that keeps one row per project of the input and no two rows for one project |
| MyRolesSerializer.AdminProjects | onadata/apps/fv3/serializers/MyRolesSerializer.py:172-174 | exactly the organization's active projects, each with project access |
| MyRolesSerializer.EligibleRows | onadata/apps/fv3/serializers/MyRolesSerializer.py:178-185 | exactly the user's rows in the organization that pass the filter |
| MyRolesSerializer.RoleProjectsAreDistinct | onadata/apps/fv3/serializers/MyRolesSerializer.py:185 | no project is listed twice |
| MyRolesSerializer.RoleProjectsCoverEligibleRoles | onadata/apps/fv3/serializers/MyRolesSerializer.py:178-186 | every eligible role's project is listed |
| MyRolesSerializer.RoleProjectsComeFromEligibleRoles | onadata/apps/fv3/serializers/MyRolesSerializer.py:178-186 | every listed entry is the entry of an eligible role |
| MyRolesSerializer.Projects | onadata/apps/fv3/serializers/MyRolesSerializer.py:169-187 | an organization admin gets the active projects with access; anyone else the entries of their eligible roles |
| MyRolesSerializer.ManagedProjectIsListedWithAccess | onadata/apps/fv3/serializers/MyRolesSerializer.py:178-186 | for a non-admin, a Project Manager role on an active project lists that project with access |
| MyRolesSerializer.ToRepresentation | onadata/apps/fv3/serializers/MyRolesSerializer.py:192-200 | `team_url` is kept iff the context user administers the organization; a missing key to pop is a KeyError; nothing else changes |
| FormsViewset.TranslationName | onadata/apps/fv3/viewsets/FormsViewset.py:212 | the translation starts with the language, ends with ')' and is three characters longer than language and code together |
| FormsViewset.WithBlankLabel | onadata/apps/fv3/viewsets/FormsViewset.py:217-219 | a row with a label list gets exactly one None appended; a row without one is unchanged |
| FormsViewset.WithBlankLabels | onadata/apps/fv3/viewsets/FormsViewset.py:215-219 | every row of the sheet, in place and in order, gets the blank-label treatment |
| FormsViewset.AddingALanguageKeepsLabelsAligned | onadata/apps/fv3/viewsets/FormsViewset.py:213-219 | if every labelled row had one label per translation, it still does after adding a language, and existing labels keep their positions |
| FormsViewset.Asset.constructor | onadata/apps/fv3/viewsets/FormsViewset.py:211 | the asset holds the given translations and survey rows, unsaved |
| FormsViewset.Asset.AddLanguage | onadata/apps/fv3/viewsets/FormsViewset.py:207-223 | without 'translations': 400 and nothing changes or is saved; otherwise exactly one translation appended, each labelled row (if there is a survey) gets a blank label, one save and 201 |
| FormsViewset.ListedIsShown | onadata/apps/fv3/viewsets/FormsViewset.py:44-52 | the code's project and organization filters select exactly the rows of visible projects whose form the user does not own |
| FormsViewset.ListedForms | onadata/apps/fv3/viewsets/FormsViewset.py:51-53 | one entry per FieldSightXF row shown: each form appears as often as rows shown wrap it |
| FormsViewset.MyProjectForms | onadata/apps/fv3/viewsets/FormsViewset.py:43-54 | the listing is ordered by form id and holds each form as often as rows shown wrap it |
| FormsViewset.MyProjectFormsMembers | onadata/apps/fv3/viewsets/FormsViewset.py:43-54 | a form is listed iff it is attached to a project of an active role, or of an organization the user is an active Org Admin of, and the user does not own it |
| FormsViewset.SharedFormListedPerRow | onadata/apps/fv3/viewsets/FormsViewset.py:51-53 | two rows shown that wrap the same form list it twice |
| FormsViewset.OrgAdminSeesTheTeamForms | onadata/apps/fv3/viewsets/FormsViewset.py:46-50 | an active Org Admin sees every project form of the organization not owned by them |
| FormsViewset.EndedRolesShowNoForms | onadata/apps/fv3/viewsets/FormsViewset.py:44-53 | ended roles give no forms, and the user's own forms are never listed |
| FormsViewset.ShareProjectRecipients | onadata/apps/fv3/viewsets/FormsViewset.py:105-111 | a user is a recipient iff they hold an active Project Manager or Org Admin role whose project is this project and whose organization is the project's organization |
| FormsViewset.ProjectShareReachesOnlyManagers | onadata/apps/fv3/viewsets/FormsViewset.py:107-110 | when Org Admin roles carry no project, as `save` leaves them, the recipients are exactly the project's active managers |
| FormsViewset.SavedOrgAdminHasNoProject | onadata/apps/userrole/models.py:83-86 | `save` clears the project of any Org Admin role |
| FormsViewset.OrgAdminMissesProjectShare | onadata/apps/fv3/viewsets/FormsViewset.py:87-110 | an Org Admin of the project's organization receives no project share, though the description promises one |
| FormsViewset.ShareProjectRecipientsIntended | onadata/apps/fv3/viewsets/FormsViewset.py:87 | corrected: a user receives the share iff they are an active manager of the project or an active Org Admin of its organization |
| FormsViewset.IntendedShareWidensWrittenShare | onadata/apps/fv3/viewsets/FormsViewset.py:87-110 | every user the written filter reaches, the corrected one reaches too |
| FormsViewset.ShareTeamRecipients | onadata/apps/fv3/viewsets/FormsViewset.py:139-144 | a user receives the team share iff they hold an active Project Manager or Org Admin role in the team |
| ShareXform.KpiPermissions | onadata/apps/fsforms/share_xform.py:22-86 | a permission key is listed iff some kpi permission with one of the codenames has it |
| ShareXform.Grant | onadata/apps/fsforms/share_xform.py:63-76 | after one grant the key is held; the table only grows, by at most one clean row for the key, and not at all if the key was held |
| ShareXform.HoldsGrows | onadata/apps/fsforms/share_xform.py:63-66 | a grant once held stays held as rows are added |
| ShareXform.GrantEachOnlyAdds | onadata/apps/fsforms/share_xform.py:36-78 | sharing only appends rows, each clean, of the content type, for one of the keys |
| ShareXform.GrantEachCovers | onadata/apps/fsforms/share_xform.py:53-76 | after sharing every key is held |
| ShareXform.GrantEachWhenHeld | onadata/apps/fsforms/share_xform.py:32-76 | when every key is already held, sharing changes nothing |
| ShareXform.SharingTwiceChangesNothing | onadata/apps/fsforms/share_xform.py:63-76 | sharing is idempotent |
| ShareXform.GrantEachAppend | onadata/apps/fsforms/share_xform.py:53-57 | sharing a concatenation of keys is sharing the first part, then the second |
| ShareXform.PermKeys | onadata/apps/fsforms/share_xform.py:57-58 | one key per permission, in order, for the asset and user |
| ShareXform.UserKeys | onadata/apps/fsforms/share_xform.py:53-58 | a key is visited iff it is on the asset, for one of the users and one of the permissions |
| ShareXform.FormKeys | onadata/apps/fsforms/share_xform.py:20-25 | a key is visited iff it is on one of the assets, for the user and one of the permissions |
| ShareXform.ShareFormsIsTheDualOfShareForm | onadata/apps/fsforms/share_xform.py:18-58 | for any form among the forms and user among the users, both functions grant that user on that form exactly the listed permissions |
| ShareXform.Resolve | onadata/apps/fsforms/share_xform.py:25 | the asset ids of the forms up to the first one without an asset |
| ShareXform.CountShared | onadata/apps/fsforms/share_xform.py:106 | no row matches `get_or_create(xf, shared=True)` iff no such row exists |
| ShareXform.EnsureShared | onadata/apps/fsforms/share_xform.py:106-108 | on success a shared row for the form exists and other forms' rows are kept; it fails iff several rows match |
| ShareXform.UnsharedRowStaysBesideNewRow | onadata/apps/fsforms/share_xform.py:106-108 | an unshared row of the form stays unshared, and a shared row is added beside it |
| ShareXform.GlobalStep | onadata/apps/fsforms/share_xform.py:87-111 | on success the anonymous user holds a clean grant; rows only grow; a held grant changes nothing; a changed shared table holds the form's shared row |
| ShareXform.GlobalAllCovers | onadata/apps/fsforms/share_xform.py:83-112 | a successful global share leaves a clean anonymous grant of every permission and only adds rows |
| ShareXform.GlobalAllWhenHeld | onadata/apps/fsforms/share_xform.py:91-111 | when every grant is held the global share changes nothing, so a second one is idempotent |
| ShareXform.DeniedGrantIsDuplicated | onadata/apps/fsforms/share_xform.py:91-104 | a denied grant does not satisfy the flag-aware test, so a clean row is added beside it |
| ShareXform.PrefixAbsorbsFailure | onadata/apps/fsforms/share_xform.py:87-111 | once a step fails, the later permissions do nothing |
| ShareXform.PermissionStore.constructor | onadata/apps/fsforms/share_xform.py:19 | the store holds the given rows |
| ShareXform.PermissionStore.ShareForm | onadata/apps/fsforms/share_xform.py:51-78 | succeeds iff there is nothing to look up or the asset exists; then every user is granted every permission on the asset, adding only missing rows; the shared table is untouched |
| ShareXform.PermissionStore.GrantPermissions | onadata/apps/fsforms/share_xform.py:57-76 | the inner loop grants each permission in turn |
| ShareXform.PermissionStore.ShareForms | onadata/apps/fsforms/share_xform.py:18-47 | the forms are shared to the user up to the first without an asset, and the call succeeds iff there is none or no permission |
| ShareXform.PermissionStore.ShareFormGlobal | onadata/apps/fsforms/share_xform.py:83-112 | no permission: nothing changes; a missing asset: nothing changes and it fails; otherwise the state and result that `GlobalAll` gives over the matching permissions |
| ShareXform.M2MNeverGrantsView | onadata/apps/fsforms/share_xform.py:8-14 | the grants `share_m2m` leaves are all 'change_xform'; 'view_xform' is never granted |
| ShareXform.M2MGrantsIntended | onadata/apps/fsforms/share_xform.py:8-14 | corrected: each user gets both 'change_xform' and 'view_xform' on each form, and nothing else (also lines 115-119) |
| ShareXform.IntendedM2MIsO2O | onadata/apps/fsforms/share_xform.py:115-119 | for one user and one form the corrected grants are exactly those of `share_o2o` |
| ShareXform.GuardianStore.constructor | onadata/apps/fsforms/share_xform.py:1 | the store holds the given grants |
| ShareXform.GuardianStore.ShareM2M | onadata/apps/fsforms/share_xform.py:8-14 | the loops add exactly the as-written grants |
| ShareXform.GuardianStore.ShareM2MIntended | onadata/apps/fsforms/share_xform.py:8-14 | corrected: the loops add exactly the intended grants |
| ShareXform.GuardianStore.ShareO2O | onadata/apps/fsforms/share_xform.py:115-119 | both grants are added and nothing else |
| StaffSerializer.StoredStaff | onadata/apps/staff/serializers/staffSerializer.py:33-44 | the stored row keeps the submitted fields; it has the bank iff one was given, and then an empty bank name, else the submitted name |
| StaffSerializer.StaffOutcome | onadata/apps/staff/serializers/staffSerializer.py:32-49 | fails iff there is neither a bank nor a bank name, with the empty-bank message wrapped in "Got error on"; otherwise returns the stored row |
| StaffSerializer.ReturnedStaffNamesABank | onadata/apps/staff/serializers/staffSerializer.py:37-43 | every returned staff has either a bank and no name, or no bank and a name |
| StaffSerializer.StaffTable.constructor | onadata/apps/staff/serializers/staffSerializer.py:35 | the table holds the given rows |
| StaffSerializer.StaffTable.Create | onadata/apps/staff/serializers/staffSerializer.py:32-49 | the row is written before the check, so the table gains the stored row even when the call raises; the result is `StaffOutcome` |
| StaffSerializer.CheckStaff | onadata/apps/staff/serializers/staffSerializer.py:76-77 | a staff passes iff it has a team and the URL team id parses to that team |
| StaffSerializer.CheckStaffs | onadata/apps/staff/serializers/staffSerializer.py:75-77 | the list passes iff every staff passes |
| StaffSerializer.CheckStaffsStops | onadata/apps/staff/serializers/staffSerializer.py:75-77 | the first failing staff's error is the list's error |
| StaffSerializer.IdsOf | onadata/apps/staff/serializers/staffSerializer.py:80 | the ids of the staffs, in order |
| StaffSerializer.AttendanceOutcome | onadata/apps/staff/serializers/staffSerializer.py:60-87 | fails iff the staff list is empty (with the empty-staffs message) or some staff fails the team check; on success the record's team is the parsed URL team and its staffs are the submitted ones |
| StaffSerializer.AttendanceStaffsShareItsTeam | onadata/apps/staff/serializers/staffSerializer.py:71-80 | a created attendance has staffs, all of its own team |
| StaffSerializer.ForeignStaffErrorIsWrappedTwice | onadata/apps/staff/serializers/staffSerializer.py:77-84 | a staff of another team gives "Got error on: " twice in the message |
| StaffSerializer.AttendanceTable.constructor | onadata/apps/staff/serializers/staffSerializer.py:79 | the table holds the given rows |
| StaffSerializer.AttendanceTable.Create | onadata/apps/staff/serializers/staffSerializer.py:60-87 | the result is `AttendanceOutcome`; a success appends exactly that record, a failure writes nothing |
| StaffViewset.TeamAccess | onadata/apps/staff/viewsets/staffViewset.py:22-36 | anonymous users are refused; otherwise allowed iff the group is Super Admin or the URL team id names a non-deleted team the requester leads |
| StaffViewset.DeletedTeamGrantsNothing | onadata/apps/staff/viewsets/staffViewset.py:31 | leading a deleted team grants nothing |
| StaffViewset.MyTeams | onadata/apps/staff/viewsets/staffViewset.py:45-52 | exactly the non-deleted teams the user leads |
| StaffViewset.TeamStaff | onadata/apps/staff/viewsets/staffViewset.py:54-81 | only non-deleted staff; an unparsable team id gives an empty list; otherwise exactly the team's staff |
| StaffViewset.StaffToUpdate | onadata/apps/staff/viewsets/staffViewset.py:87-98 | exactly the non-deleted staff with the URL pk and team id, a missing team id matching staff with no team; a missing pk matches nothing |
| StaffViewset.StampStaff | onadata/apps/staff/viewsets/staffViewset.py:83-85 | the creator is the requester and the team the URL's; the rest is as submitted |
| StaffViewset.StampOverridesClientValues | onadata/apps/staff/viewsets/staffViewset.py:83-85 | creator and team sent by the client have no effect |
| StaffViewset.RecentAttendance | onadata/apps/staff/viewsets/staffViewset.py:100-111 | exactly the team's non-deleted records dated from seven days ago to today, both ends included |
| StaffViewset.AttendanceWindowBounds | onadata/apps/staff/viewsets/staffViewset.py:107-110 | both ends of the window are listed, and the days just outside it are not |
| StaffViewset.StampAttendance | onadata/apps/staff/viewsets/staffViewset.py:113-115 | the submitter is the requester and the team the URL's; the rest is as submitted |
| ViewerViews.Field | onadata/apps/viewer/views.py:77-82 | a numeric `strptime` directive yields a value only within its range |
| ViewerViews.ParseStamp | onadata/apps/viewer/views.py:77-82 | every parsed time is a valid calendar time (leap seconds only for `time.strptime`) |
| ViewerViews.StrftimeYear | onadata/apps/viewer/views.py:78 | Python 2 `time.strftime` keeps years from 1900 and never yields an earlier one |
| ViewerViews.ShiftKeepsStamp | onadata/apps/viewer/views.py:78 | moving a two-digit year into 1969..2068 keeps the time valid |
| ViewerViews.Encode | onadata/apps/viewer/views.py:76-78 | `encode` succeeds only on strings `time.strptime` parses |
| ViewerViews.FormatDateForMongo | onadata/apps/viewer/views.py:81-83 | every result has the ISO layout YYYY-MM-DDThh:mm:ss |
| ViewerViews.RenderShape | onadata/apps/viewer/views.py:78-83 | a rendered time is 19 characters, ISO-shaped with '-' and 'T' |
| ViewerViews.UnderscoredParses | onadata/apps/viewer/views.py:77-82 | the underscored form of a valid time parses back to that time |
| ViewerViews.EncodeKeepsFields | onadata/apps/viewer/views.py:76-78 | from 1900 on, `encode` rewrites the underscores and keeps every field |
| ViewerViews.EncodeShiftsEarlyYears | onadata/apps/viewer/views.py:76-78 | a year from 1 to 68 comes out 2000 years later |
| ViewerViews.EncodeRejectsOldYears | onadata/apps/viewer/views.py:76-78 | a year from 100 to 1899 makes `encode` raise |
| ViewerViews.EncodeIntended | onadata/apps/viewer/views.py:76-78 | corrected: succeeds exactly on the strings `strptime` parses |
| ViewerViews.EncodeIntendedKeepsFields | onadata/apps/viewer/views.py:76-78 | corrected: every valid time keeps all its fields |
| ViewerViews.EncodeAgreesFrom1900 | onadata/apps/viewer/views.py:76-78 | the written and the corrected `encode` agree from 1900 on |
| ViewerViews.FormatDateKeepsFields | onadata/apps/viewer/views.py:81-83 | a valid time in 1969..2068 keeps every field |
| ViewerViews.FormatDateRejectsLeapSecond | onadata/apps/viewer/views.py:81-83 | a second of 60 or 61 makes `format_date_for_mongo` raise |
| ViewerViews.TimeRange | onadata/apps/viewer/views.py:61-68 | the range holds `$gte` iff a start was given and `$lte` iff an end was, and nothing else |
| ViewerViews.SubmissionTimeQuery | onadata/apps/viewer/views.py:60-73 | a bad request iff a given start or end does not parse; otherwise the submission-time key holds the range and the other keys are kept |
| ViewerViews.SetSubmissionTime | onadata/apps/viewer/views.py:60-73 | the step-by-step update gives `SubmissionTimeQuery` |
| ViewerViews.PutTwice | onadata/apps/viewer/views.py:61 | setting a key twice keeps the second value |
| ViewerViews.ExportExtension | onadata/apps/viewer/views.py:240-247 | the extension differs from the type only for XLS (xlsx unless `xls=true`) and the zip exports (zip) |
| ViewerViews.DataExportQuery | onadata/apps/viewer/views.py:233-265 | without start or end the query passes unchanged; it crashes iff a date is given and the submission-time query is a bad request; otherwise it is the query with the submission-time range added |
| ViewerViews.MalformedStartCrashesDataExport | onadata/apps/viewer/views.py:262 | a malformed start makes `data_export` crash instead of answering 400 |
| ViewerViews.DataExportQueryIntended | onadata/apps/viewer/views.py:60-73 | corrected: 400 exactly where the written code crashes, the same query elsewhere (also lines 258-262) |
| ViewerViews.ExportFilter | onadata/apps/viewer/views.py:313-325 | the form filter, plus `__version__` iff a version other than "0" or 0 is given |
| ViewerViews.OptionsOf | onadata/apps/viewer/views.py:333-353 | a bad request iff the delimiter is neither '.' nor '/'; split unless `dont_split` is other than "no"; meta present iff given, with every comma removed and nothing else |
| ViewerViews.FormById | onadata/apps/viewer/views.py:316 | a form iff the id parses and names one |
| ViewerViews.CreateExport | onadata/apps/viewer/views.py:307-388 | 403 for an external export without template; no form iff not a project export and the id names none; bad options as `OptionsOf`; otherwise the filter, the joined not-deleted query and the options queued |
| ViewerViews.ProgressStep | onadata/apps/viewer/views.py:464-505 | each entry carries the export's id and is complete iff the export is not pending; a pending export has no url |
| ViewerViews.Progress | onadata/apps/viewer/views.py:462-506 | on success one entry per export, in order, with its id and completeness |
| ViewerViews.ExportProgress | onadata/apps/viewer/views.py:453-510 | the loop gives `Progress`, starting with no `url` |
| ViewerViews.PrependNothing | onadata/apps/viewer/views.py:462 | the loop starts from an empty status list |
| ViewerViews.ProgressCons | onadata/apps/viewer/views.py:464-505 | one more export adds its entry, or propagates the failure |
| ViewerViews.PrependAssoc | onadata/apps/viewer/views.py:505 | appending entries in two steps is appending them at once |
| ViewerViews.ExternalExportWithoutAddressCrashes | onadata/apps/viewer/views.py:500-502 | a finished external export without an address, as the first export, raises NameError |
| ViewerViews.ProgressStepIntended | onadata/apps/viewer/views.py:464-505 | corrected: every export gives an entry with its id and completeness; a finished export with a stored address, or of a type other than Google or external, links to its download; a finished external export without an address is reported without a URL and without error |
| ViewerViews.ProgressAgreesWithIntended | onadata/apps/viewer/views.py:453-510 | without external exports lacking an address, the written loop gives the corrected entries |
| ViewerViews.AttachmentQuery | onadata/apps/viewer/views.py:791-815 | no file without `media_file`; an owner lookup exactly for `owner/attachments/file` with nonempty parts and no '/' in them; an exact-name lookup otherwise |
| ViewerViews.AttachmentPathRoundTrip | onadata/apps/viewer/views.py:799 | an owner and a file name are read back from their path |
| ViewerViews.ChartParams | onadata/apps/viewer/views.py:919-941 | an unparsable or missing `lang` gives 0; the page index is the page minus one, at least 0; the rendered page is the index plus one |
| ViewerViews.RenderedPageIsRequestedPage | onadata/apps/viewer/views.py:924-941 | a page from 1 up is rendered as itself; a missing, bad or smaller page renders as 1 |
| ViewerViews.FormFilter | onadata/apps/viewer/views.py:314-322 | a project export filters by the project form key; a site form by its own key; a project form used at a site by the project form key and the site; no other key is set |
| KoboExports.ByForm | onadata/apps/fv3/viewsets/KoboExportsViewset.py:32-35 | exactly the exports of the form, and of the site when one is given |
| KoboExports.Listing | onadata/apps/fv3/viewsets/KoboExportsViewset.py:24-38 | nothing without all three parameters; a failure iff a key used in a filter is not a number; otherwise exactly the form's exports (at site `id` unless a project listing), of the given version if any |
| KoboExports.ByVersion | onadata/apps/fv3/viewsets/KoboExportsViewset.py:36-37 | exactly the exports of that version |
| KoboExports.SiteListingWithinProjectListing | onadata/apps/fv3/viewsets/KoboExportsViewset.py:32-35 | every export a site listing shows, the project listing of the same form shows |
| KoboExports.ExportViewSet.constructor | onadata/apps/fv3/viewsets/KoboExportsViewset.py:19 | the queryset starts as all exports |
| KoboExports.ExportViewSet.GetQueryset | onadata/apps/fv3/viewsets/KoboExportsViewset.py:24-38 | the answer is `Listing` of the old queryset; the queryset field is narrowed to the form (and site) filter, and left alone when parameters are missing or a key fails |
| KoboExports.Create | onadata/apps/fv3/viewsets/KoboExportsViewset.py:40-90 | 400 iff a parameter is missing; a failure iff the form id names no form; 400 for a bad delimiter; otherwise the export job receives the form filter, the not-deleted query, the options without binary select, and the site iff not a project export |
| KoboExports.ProjectExportIgnoresSite | onadata/apps/fv3/viewsets/KoboExportsViewset.py:49-51 | a project export's filter depends on neither the site nor where the form is attached |
| KoboExports.SiteFormFilterHasNoSite | onadata/apps/fv3/viewsets/KoboExportsViewset.py:54-55 | a site-level form is filtered on its own key and names no site |
| SiteMetaAttribs.Nested | onadata/apps/fieldsight/utils/siteMetaAttribs.py:22-24 | the dictionary searched next is the first element of some non-empty list value |
| SiteMetaAttribs.NestedIsSmaller | onadata/apps/fieldsight/utils/siteMetaAttribs.py:24 | the nested dictionary is strictly smaller, so the search ends |
| SiteMetaAttribs.FindAnswer | onadata/apps/fieldsight/utils/siteMetaAttribs.py:19-25 | a truthy direct answer is returned as is; without a nested dictionary the direct answer is returned |
| SiteMetaAttribs.Descent | onadata/apps/fieldsight/utils/siteMetaAttribs.py:22-24 | the dictionaries the search visits, starting with the answers themselves |
| SiteMetaAttribs.FindAnswerIsFirstTruthy | onadata/apps/fieldsight/utils/siteMetaAttribs.py:19-25 | the answer is the first truthy value along the descent |
| SiteMetaAttribs.FindAnswerFalsy | onadata/apps/fieldsight/utils/siteMetaAttribs.py:19-25 | with no truthy value, the answer is the last dictionary's falsy value |
| SiteMetaAttribs.MissingQuestionAnswersEmpty | onadata/apps/fieldsight/utils/siteMetaAttribs.py:20-25 | a question absent at every level answers "" |
| SiteMetaAttribs.FormAnswer | onadata/apps/fieldsight/utils/siteMetaAttribs.py:27-47 | "" for an unknown form, a site without submission or a repeat question; for an existing form with a submission, a missing question raises and any other question gives the answer found in the latest submission, a non-empty media answer prefixed with the attachment address (raising when it is not a string) |
| SiteMetaAttribs.FormSubStatus | onadata/apps/fieldsight/utils/siteMetaAttribs.py:50-60 | a failure iff `form_id` is not a number; a known form with a submission at the site gives "Last submitted on " and that submission's date, and anything else gives "" |
| SiteMetaAttribs.FormQuestionAnswered | onadata/apps/fieldsight/utils/siteMetaAttribs.py:63-81 | "Answered" iff the latest submission at the site has a truthy answer to the question |
| SiteMetaAttribs.FormSubmissionCount | onadata/apps/fieldsight/utils/siteMetaAttribs.py:84-91 | a failure iff `form_id` is not a number; a count (never negative) iff the form exists, else "" |
| SiteMetaAttribs.ReferencedSite | onadata/apps/fieldsight/utils/siteMetaAttribs.py:112-114 | a referenced site is a site of the meta's project |
| SiteMetaAttribs.PlainStep | onadata/apps/fieldsight/utils/siteMetaAttribs.py:129-144 | a non-Link meta always sets its own name; a plain question copies the site's answer, or "" |
| SiteMetaAttribs.Step | onadata/apps/fieldsight/utils/siteMetaAttribs.py:102-144 | a Link to the main project is skipped; non-Link metas take the plain step; any answer goes under the meta's name |
| SiteMetaAttribs.LinkOutcomes | onadata/apps/fieldsight/utils/siteMetaAttribs.py:105-127 | a Link not to the main project answers 'No site referenced' iff no site matches its stored answer or that site's project is not selected; otherwise, with depth left, `{children, answer}` where children is the walk of the site's selected metas over its answers, and a failure when that walk fails |
| SiteMetaAttribs.Names | onadata/apps/fieldsight/utils/siteMetaAttribs.py:123-144 | exactly the question names of the metas |
| SiteMetaAttribs.FoldKeys | onadata/apps/fieldsight/utils/siteMetaAttribs.py:100-144 | the walk writes only the metas' names, and keeps the keys already present |
| SiteMetaAttribs.PlainMetasCopyAnswers | onadata/apps/fieldsight/utils/siteMetaAttribs.py:142-144 | a single plain meta gives exactly its own answer |
| SiteMetaAttribs.GenerateAns | onadata/apps/fieldsight/utils/siteMetaAttribs.py:100-144 | the loop gives the recursive walk `Fold` |
| SiteMetaAttribs.MetaStep | onadata/apps/fieldsight/utils/siteMetaAttribs.py:105-144 | one meta of the loop gives `Step`: a Link meta follows its link, any other reads its own answer |
| SiteMetaAttribs.LinkAnswer | onadata/apps/fieldsight/utils/siteMetaAttribs.py:105-127 | a Link meta's branch gives `Step` |
| SiteMetaAttribs.GetSiteMetaAns | onadata/apps/fieldsight/utils/siteMetaAttribs.py:94-148 | the first site with that id, of a project with metas, gets the walk of its project's metas over its answers, and an unknown site fails; so on success every key is the name of one of its project's metas |
| SiteMetaAttribs.MetaAns | onadata/apps/fieldsight/utils/siteMetaAttribs.py:151-204 | the answers for one meta are nothing or one entry under that meta's name, and exactly one entry for a meta other than a Link |
| SiteMetaAttribs.PopBoth | onadata/apps/fieldsight/utils/siteMetaAttribs.py:208-211 | on success the other keys are kept in both dictionaries; with unique keys, every deleted name is gone from both and keys stay unique |
| SiteMetaAttribs.PopKeepsUnique | onadata/apps/fieldsight/utils/siteMetaAttribs.py:210-211 | popping keeps keys unique |
| SiteMetaAttribs.PopIsRemoval | onadata/apps/fieldsight/utils/siteMetaAttribs.py:210-211 | a pop removes exactly one entry |
| SiteMetaAttribs.MergeAll | onadata/apps/fieldsight/utils/siteMetaAttribs.py:212-215 | the merge changes only the changed metas' names, keeps every key, and on success holds an answer under the name of every changed meta other than a Link |
| SiteMetaAttribs.MergeAllLast | onadata/apps/fieldsight/utils/siteMetaAttribs.py:212-215 | one more changed meta: after a failure nothing happens; otherwise its answer, computed on the dictionary merged so far, is put under its name and every other name keeps its answer |
| SiteMetaAttribs.SiteAnswers.constructor | onadata/apps/fieldsight/utils/siteMetaAttribs.py:207 | the site holds the row's answers, unsaved |
| SiteMetaAttribs.SiteAnswers.UpdateSiteMetaAns | onadata/apps/fieldsight/utils/siteMetaAttribs.py:207-216 | the site's own answers lose the deleted names; all answers are popped, then merged by `MergeAll`; a failed pop or merge stops before the save; saved once on success |
| SiteMetaAttribs.UpdateRemovesDeleted | onadata/apps/fieldsight/utils/siteMetaAttribs.py:207-216 | deleted names are gone from the site's own answers; other names neither deleted nor changed keep their values |
| Fv3Views.SupervisedProjects | onadata/apps/fv3/views.py:53-64 | a project is listed iff the user holds an active Region or Site Supervisor role in it |
| Fv3Views.SupervisorProjects | onadata/apps/fv3/views.py:46-79 | one entry per supervised project, in order, flagged iff the user is an active Site Supervisor there |
| Fv3Views.UnflaggedMeansRegionSupervisor | onadata/apps/fv3/views.py:53-77 | a listed project without the site flag comes from a Region Supervisor role |
| Fv3Views.SupervisedSites | onadata/apps/fv3/views.py:88-117 | no region and no project gives nothing; a region gives exactly the sites within two region levels of it; a project gives the sites (or their child sites) the user supervises without region; a bad `last_updated` gives nothing; a good one keeps the sites modified since |
| Fv3Views.GrandchildRegionSitesIncluded | onadata/apps/fv3/views.py:94-96 | a site in a grandchild region is listed for the grandparent region |
| Fv3Views.CheckRegion | onadata/apps/fv3/views.py:426-432 | 404 iff the project does not exist; `has_region` iff the project clusters its sites |
| Fv3Views.InsertKeepsIdentifiersUnique | onadata/apps/fv3/views.py:262-273 | adding a site whose identifier is free in its project keeps identifiers unique per project |
| Fv3Views.SiteStore.constructor | onadata/apps/fv3/views.py:214 | the store holds the given sites |
| Fv3Views.SiteStore.PerformCreate | onadata/apps/fv3/views.py:262-273 | a conflict iff the `project` parameter's project already has the identifier; a failure iff the parameter is not a number; otherwise the site is added under the next id, keeping identifiers unique when the parameter names the site's own project |
| Fv3Views.SiteStore.UpdateIdentifier | onadata/apps/fv3/views.py:275-295 | as written the update is saved before the conflict test, so it never reports a conflict and always renames |
| Fv3Views.SiteStore.PerformDestroy | onadata/apps/fv3/views.py:326-330 | the site is soft-deleted in place and nothing else changes |
| Fv3Views.Renamed | onadata/apps/fv3/views.py:279 | only the site's identifier changes |
| Fv3Views.UpdateAdmitsDuplicate | onadata/apps/fv3/views.py:279-295 | renaming a site to another site's identifier breaks per-project uniqueness |
| Fv3Views.UpdateIdentifierIntended | onadata/apps/fv3/views.py:286-295 | corrected: a conflict iff the identifier changes to one taken in the project; otherwise the rename, which keeps identifiers unique |
| Fv3Views.SoftDeleted | onadata/apps/fv3/views.py:327-329 | the deleted site is inactive and keeps its project, region and parent |
| Fv3Views.DestroyFreesIdentifier | onadata/apps/fv3/views.py:328 | the new identifier differs, starts with the old one and ends with '_' and the pk |
| Fv3Views.SameDictIsEquality | onadata/apps/fv3/views.py:301 | two answer dictionaries are equal iff they agree on every key |
| Fv3Views.DiffOf | onadata/apps/fv3/views.py:302-309 | a key is in the diff iff a project question of that name changed its answer as `get` reads it (a null answer and a missing one alike), with the question's label and both answers ('null' when absent) |
| Fv3Views.MetaDiff | onadata/apps/fv3/viewsets/ProjectDashboardViewSet.py:170-177 | no diff when the old and new answer dictionaries are equal; otherwise the diff of every question whose answer, read with `get`, changed |
| Fv3Views.DiffListsExactlyChanged | onadata/apps/fv3/views.py:302-309 | the diff lists exactly the questions whose answer, read with `get`, changed, and nothing without questions |
| Fv3Views.NullAnswerMatchesMissing | onadata/apps/fv3/views.py:308 | a question answered with null before and missing after has not changed and gives no diff entry |
| Fv3Views.RemoveFirst | onadata/apps/fv3/views.py:482 | removes one occurrence when present, keeping every other meta |
| Fv3Views.RemoveEach | onadata/apps/fv3/views.py:480-482 | removes at most the deleted metas and keeps every meta not deleted |
| Fv3Views.Prune | onadata/apps/fv3/views.py:476-484 | a meta keeps its name and type; only a Link meta with the project's key changes |
| Fv3Views.DeletedMetas | onadata/apps/fv3/views.py:469-474 | exactly the old metas that are not among the new ones |
| Fv3Views.ProjectTable.constructor | onadata/apps/fv3/views.py:462 | the table holds the given projects |
| Fv3Views.ProjectTable.DefineSiteMeta | onadata/apps/fv3/views.py:460-502 | the project gets the new metas, basic info and images; every other project has its Link metas pruned of the deleted metas when the metas changed |
| Fv3Views.ProjectTable.PruneOrganization | onadata/apps/fv3/views.py:476-486 | every project of the organization is pruned, the rest untouched |
| Fv3Views.Deleted | onadata/apps/fv3/views.py:469-474 | the loop gives the deleted metas |
| Fv3Views.PrunedRow | onadata/apps/fv3/views.py:476-486 | a project outside the organization is unchanged; inside, only its metas are pruned |
| Fv3Views.PruneAll | onadata/apps/fv3/views.py:477-484 | every meta pruned in place |
| Fv3Views.PruneNothing | onadata/apps/fv3/views.py:469-484 | with nothing deleted, pruning changes nothing |
| Fv3Views.PruneOnlyRemovesDeleted | onadata/apps/fv3/views.py:480-482 | a pruned Link list is a sub-multiset of the old one and keeps every meta not deleted |
| ProjectDashboardViews.SurveyUrlNamesForm | onadata/apps/fv3/viewsets/ProjectDashboardViewSet.py:78 | the submission link starts with the new-submission prefix and the rest reads back as the form's id |
| ProjectDashboardViews.SurveyLinks | onadata/apps/fv3/viewsets/ProjectDashboardViewSet.py:67-81 | 404 iff the project does not exist; otherwise one (title, link) pair per survey form of the project, in table order |
| ProjectDashboardViews.RegionsTypes | onadata/apps/fv3/viewsets/ProjectDashboardViewSet.py:85-98 | 404 iff the project is missing or inactive; otherwise exactly its active regions and its site types not deleted |
| ProjectDashboardViews.CreationLog | onadata/apps/fv3/viewsets/ProjectDashboardViewSet.py:138-150 | a sub-site log iff a parent site was given, a new-site log otherwise, about the new site |
| ProjectDashboardViews.SiteForms.constructor | onadata/apps/fv3/viewsets/ProjectDashboardViewSet.py:102 | the viewset's tables hold the given rows |
| ProjectDashboardViews.SiteForms.Create | onadata/apps/fv3/viewsets/ProjectDashboardViewSet.py:125-152 | the site and its answers are added under a fresh id, with exactly one creation log; submissions are untouched |
| ProjectDashboardViews.SiteForms.Update | onadata/apps/fv3/viewsets/ProjectDashboardViewSet.py:153-191 | an unknown site changes nothing; otherwise the answers are replaced and one edit log is added; its detail is none when the answer dictionaries are equal, else the diff of exactly the project questions whose answer, read with `get`, changed |
| ProjectDashboardViews.SiteForms.Destroy | onadata/apps/fv3/viewsets/ProjectDashboardViewSet.py:196-228 | 204 and no change for an unknown site; otherwise the site is soft-deleted, all its submissions are marked deleted, and one delete log is added |
| ProjectDashboardViews.EditOutsideQuestionsLogsEmptyDetail | onadata/apps/fv3/viewsets/ProjectDashboardViewSet.py:170-179 | when answers change only outside the project's questions, the log carries an empty detail rather than none |
| LineData.FloorDiv | onadata/apps/fsforms/line_data_project.py:11 | the quotient of a `timedelta` by an integer is floored: for a positive divisor, the largest q with b*q <= a; for a negative one, the smallest q with a <= b*q |
| LineData.Steps | onadata/apps/fsforms/line_data_project.py:12-13 | n samples, the i-th at start + diff*i |
| LineData.DateRangeSpec | onadata/apps/fsforms/line_data_project.py:8-14 | fails (division by zero) iff the interval is 0 |
| LineData.DateRange | onadata/apps/fsforms/line_data_project.py:8-14 | the generator's loop yields the samples of `DateRangeSpec` |
| LineData.DateRangeShape | onadata/apps/fsforms/line_data_project.py:11-14 | for a positive interval: intv + 1 samples, the first the start, the last the end, evenly spaced by the floored difference |
| LineData.DateRangeWithin | onadata/apps/fsforms/line_data_project.py:11-14 | when the end is not before the start, the samples never decrease and stay between start and end |
| LineData.StepMonotone | onadata/apps/fsforms/line_data_project.py:13 | a later step of a non-negative difference is no smaller |
| LineData.DateRangeNegative | onadata/apps/fsforms/line_data_project.py:12-14 | a negative interval yields only the end |
| LineData.ChartOf | onadata/apps/fsforms/line_data_project.py:27-88 | the chart has at most one entry per sample |
| LineData.ChartData | onadata/apps/fsforms/line_data_project.py:27-88 | the loop filling the ordered dictionary gives `ChartOf` |
| LineData.ChartKeys | onadata/apps/fsforms/line_data_project.py:30-32 | the keys are the distinct formatted dates, in order of first appearance |
| LineData.ChartKeepsLast | onadata/apps/fsforms/line_data_project.py:32 | a key holds the count of the last sample with that label |
| LineData.ChartValuesAreSamples | onadata/apps/fsforms/line_data_project.py:31-32 | every value is the count of some sample |
| LineData.Through | onadata/apps/fsforms/line_data_project.py:23-82 | exactly the submissions dated up to the day after the sample |
| LineData.CountThroughMonotone | onadata/apps/fsforms/line_data_project.py:23-82 | a later sample counts at least as many submissions |
| LineData.LineChart | onadata/apps/fsforms/line_data_project.py:17-88 | each generator's chart has at most seven points |
| LineData.LineChartRises | onadata/apps/fsforms/line_data_project.py:17-88 | from creation to today, the counts never decrease |
| ProjectDashboardSerializer.IsProjectManagerMeansFullAccess | onadata/apps/fv3/serializers/ProjectDashboardSerializer.py:81-92 | the requester counts as manager (Project Manager of the project, Organization Admin of its organization, or super admin) exactly when the read-only project mixin grants full, not donor-only, access |
| ProjectDashboardSerializer.SinceWeekAgo | onadata/apps/fv3/serializers/ProjectDashboardSerializer.py:95-96 | exactly the instances created on or after the week-ago time |
| ProjectDashboardSerializer.ProjectActivity | onadata/apps/fv3/serializers/ProjectDashboardSerializer.py:94-130 | a failed aggregation gives the string 'Error occured.', an empty one 0, else the first row's sum; the total is the sum of the four counts, each passed through; last week's submissions are the recent instances, and the active supervisors are the number of different users who submitted them, never more than the submissions and positive iff there are any |
| ProjectDashboardSerializer.DistinctUsersCount | onadata/apps/fv3/serializers/ProjectDashboardSerializer.py:123 | `distinct('user').count()` is the number of different submitters |
| ProjectDashboardSerializer.StatusesAddUp | onadata/apps/fv3/serializers/ProjectDashboardSerializer.py:31-35 | with every status among 0 to 3, the total is pending + rejected + flagged + approved |
| ProjectDashboardSerializer.Samples | onadata/apps/fv3/serializers/ProjectDashboardSerializer.py:25 | seven sample dates, from the creation day to today |
| ProjectDashboardSerializer.ProjectChart | onadata/apps/fv3/serializers/ProjectDashboardSerializer.py:40-46 | the chart has at most seven points |
| ProjectDashboardSerializer.SubmissionsChart | onadata/apps/fv3/serializers/ProjectDashboardSerializer.py:167-187 | five series named as in the source, each labelled by the chart's keys and holding, index by index, its field of each point |
| ProjectDashboardSerializer.ChartTotalsAddUp | onadata/apps/fv3/serializers/ProjectDashboardSerializer.py:27-46 | at every index, the total series is the sum of the pending, approved, rejected and flagged series (also lines 167-187) |
| ProjectDashboardSerializer.SeriesAddUp | onadata/apps/fv3/serializers/ProjectDashboardSerializer.py:167-187 | a point whose total is the sum of its four counts gives series that add up at its index |
| ProjectDashboardSerializer.TermsAndLabels | onadata/apps/fv3/serializers/ProjectDashboardSerializer.py:199-219 | the seven keys in order; the project's own terms when it has them, else 'Site', 'Donor', 'Site Supervisor', 'Site Reviewer', 'Region', 'Region Supervisor', 'Region Reviewer' |
| ProjectDashboardSerializer.DefaultLabelsAndGroups | onadata/apps/fv3/serializers/ProjectDashboardSerializer.py:212-219 | the default supervisor and region labels coincide with the group names, while 'Site Reviewer' and 'Donor' differ from the Reviewer and Project Donor group names |
| ProjectDashboardSerializer.GetBreadcrumbs | onadata/apps/fv3/serializers/ProjectDashboardSerializer.py:226-234 | the project and organization names; the organization's URL for an Organization Admin of it or a super admin, the project's URL otherwise |
| ProjectDashboardSerializer.NonManagerLinksToProject | onadata/apps/fv3/serializers/ProjectDashboardSerializer.py:226-234 | a requester who is not a manager of the project gets the project's URL as the organization link (also lines 81-92) |
| ManageForms.ValidateSchedule | onadata/apps/fv3/serializers/manage_forms.py:73-92 | refused with the duplicate message exactly when a non-staged scheduled form of the same XForm, deleted or not, already sits at the given site (or, without 'site', in the given project); accepted data is returned unchanged |
| ManageForms.SecondScheduleRefused | onadata/apps/fv3/serializers/manage_forms.py:73-92 | a second scheduled form of the same XForm at the same site is refused, whether or not the first was deleted |
| ManageForms.SiteKeyHidesProjectDuplicate | onadata/apps/fv3/serializers/manage_forms.py:76-86 | with 'site' present but null, only site-level forms are compared, so a project-level duplicate is not refused |
| ManageForms.ScheduleLevelType | onadata/apps/fv3/serializers/manage_forms.py:104-110 | 'Monthly' iff level 2, 'Weekly' iff level 1, 'Daily' for every other level |
| ManageForms.LevelTypeRoundTrip | onadata/apps/fv3/serializers/manage_forms.py:104-110 | the three names tell the levels 0, 1 and 2 apart |
| ManageForms.OrZero | onadata/apps/fv3/serializers/manage_forms.py:52-58 | an annotation read with hasattr: its value, or 0 when absent (also lines 165-168) |
| ManageForms.FormResponses | onadata/apps/fv3/serializers/manage_forms.py:26-39 | None (the implicit return) iff neither the project context, a project nor a site is set; the response annotation in a project context or for a project form; the site annotation for a site form (also lines 146-154) |
| ManageForms.ProjectFormResponses | onadata/apps/fv3/serializers/manage_forms.py:52-58 | 0 outside a project context or without the annotation |
| ManageForms.ProjectContextCountsAgree | onadata/apps/fv3/serializers/manage_forms.py:26-57 | in a project context the general and the project form serializers report the same count |
| ManageForms.SubStageWeight | onadata/apps/fv3/serializers/manage_forms.py:165-168 | 0 without the annotation |
| ManageForms.SiteFilter | onadata/apps/fv3/serializers/manage_forms.py:187-190 | the count is narrowed to a site exactly when is_project is '0' and pk is given |
| ManageForms.SubStageResponses | onadata/apps/fv3/serializers/manage_forms.py:181-202 | 0 when the stage has no form; a site form counts its site instances; a project form counts its project instances, narrowed to the site when one is filtered, and never more than unfiltered |
| ManageForms.WhereNarrows | onadata/apps/fv3/serializers/manage_forms.py:195-197 | narrowing a project form's instances to a site never gives more |
| ManageForms.FormTable.constructor | onadata/apps/fv3/serializers/manage_forms.py:243-277 | the table starts valid: ids below the next id, at most one form per stage |
| ManageForms.FormTable.UpdateSubStage | onadata/apps/fv3/serializers/manage_forms.py:243-277 | without an XForm the forms are untouched; with one the table becomes the swapped table, and keeping the same XForm creates no row |
| ManageForms.StageForm | onadata/apps/fv3/serializers/manage_forms.py:253 | the form attached to the stage, if any |
| ManageForms.StageFormIs | onadata/apps/fv3/serializers/manage_forms.py:253 | with one form per stage, the lookup finds that form |
| ManageForms.SwapKeepsOneFormPerStage | onadata/apps/fv3/serializers/manage_forms.py:251-277 | afterwards the stage holds exactly one form, of the chosen XForm and status; a replaced form is kept, deleted and detached; no other form changes |
| RegionForms.MatchRunSound | onadata/apps/fieldsight/forms.py:27 | the greedy run of word characters from position i succeeds exactly when the rest is word characters, possibly followed by one final newline that Python's `$` lets through |
| RegionForms.MatcherAgrees | onadata/apps/fieldsight/forms.py:27 | the step-by-step matcher accepts exactly the strings the pattern describes |
| RegionForms.UsernameShape | onadata/apps/fieldsight/forms.py:27-48 | a username without a newline is accepted iff it has 2 to 30 characters, starts with a lower-case letter and holds only lower-case letters, digits and '_' |
| RegionForms.TrailingNewlineMatches | onadata/apps/fieldsight/forms.py:27-48 | 'ab' with a trailing newline passes the pattern; 'a', '1ab' and 'aB' do not |
| RegionForms.ProjectRoleGroups | onadata/apps/fieldsight/forms.py:222-223 | the group choices are Project Manager only, present iff that group exists |
| RegionForms.CleanIdentifier | onadata/apps/fieldsight/forms.py:438-442 | refused with the fixed message iff the identifier contains '_' or ' '; otherwise returned unchanged |
| RegionForms.InitialIdentifier | onadata/apps/fieldsight/forms.py:429-432 | only an existing region gets an initial identifier, and it never contains '_' |
| RegionForms.InitialIdentifierStripsPrefix | onadata/apps/fieldsight/forms.py:429-432 | a prefixed identifier shows only its last piece; an unprefixed one shows itself |
| RegionForms.SplitLast | onadata/apps/fieldsight/forms.py:431-432 | the last piece of a split is the last piece of what follows the last separator |
| RegionForms.InitialIdentifierIsClean | onadata/apps/fieldsight/forms.py:429-442 | the initial identifier passes clean_identifier iff it has no space |
| RegionForms.OptionChoices | onadata/apps/fieldsight/forms.py:472-475 | one (text, text) choice per option, text being option_text or null; fails (AttributeError) iff some option is not a dictionary |
| RegionForms.FieldFor | onadata/apps/fieldsight/forms.py:467-482 | the field named by question_name: a FloatField for 'Number', a DateField for 'Date', a ChoiceField for 'MCQ' (no choices without options), a CharField for anything else |
| RegionForms.BulkEditFields | onadata/apps/fieldsight/forms.py:461-482 | the loop over the attributes builds `BulkFields` |
| RegionForms.BulkFailureSticks | onadata/apps/fieldsight/forms.py:467-482 | once an attribute fails, the whole form fails |
| RegionForms.BulkFieldsHoldAttributes | onadata/apps/fieldsight/forms.py:467-482 | an attribute not overridden by a later one of the same name keeps its field in the form |
| RegionForms.SitesFieldFirst | onadata/apps/fieldsight/forms.py:466-469 | when no attribute is named 'sites', the first field is 'sites' over the project's active sites |
| EventContext.FirstTen | onadata/apps/eventlog/context_processors.py:19-29 | the slice `[:10]`: a prefix of at most ten rows, the whole list when it is that short |
| EventContext.Unseen | onadata/apps/eventlog/context_processors.py:19-29 | exactly the unseen logs, of the given organization when one is filtered |
| EventContext.ChannelsUrl | onadata/apps/eventlog/context_processors.py:35-36 | the websocket address followed by ':' and the port when a port is set, then '/' |
| EventContext.EventsFor | onadata/apps/eventlog/context_processors.py:6-46 | fails iff there is no Site or an Organization Admin has no organization; an anonymous user gets no messages, a signed-in user the inbox; the channels URL and the site's domain are passed through |
| EventContext.NotificationsBounded | onadata/apps/eventlog/context_processors.py:17-34 | every log-reading group sees the first ten unseen logs, of the request's organization unless the group is Super Admin: at most ten, all unseen; none without a group or for any other group |
| EventContext.SubscriptionIds | onadata/apps/eventlog/context_processors.py:13-34 | oid is None iff there is no group, the organization's id for an Organization Admin, 0 otherwise; pid is set only for a Project Manager with a project, sid only for a Reviewer or Site Supervisor with a site |
| EventContext.TenOfMany | onadata/apps/eventlog/context_processors.py:18-19 | a Super Admin with more than ten unseen logs sees exactly the first ten |
| FcmDevices.DeviceName | onadata/apps/fieldsight/viewsets/FieldsightFcmViewset.py:33-38 | the submitted value when it is some user's email; otherwise, exactly when one user has that username, that user's email; fails when no user or several users have it |
| FcmDevices.DeviceWith | onadata/apps/fieldsight/viewsets/FieldsightFcmViewset.py:27 | the device with the id, if any |
| FcmDevices.DeviceWithIs | onadata/apps/fieldsight/viewsets/FieldsightFcmViewset.py:27 | with unique device ids, the lookup finds the one device |
| FcmDevices.UpsertKeepsOneDevice | onadata/apps/fieldsight/viewsets/FieldsightFcmViewset.py:25-39 | after registering, exactly one device has the id, active with the submitted registration id and name; an existing row is reused, else one is added; no other device changes |
| FcmDevices.Deactivated | onadata/apps/fieldsight/viewsets/FieldsightFcmViewset.py:43-50 | the devices with the id are switched off and no other changes; a missing id matches none |
| FcmDevices.DeactivateIdempotent | onadata/apps/fieldsight/viewsets/FieldsightFcmViewset.py:43-50 | switching off twice is switching off once, and no device with the id stays active |
| FcmDevices.DestroyStatus | onadata/apps/fieldsight/viewsets/FieldsightFcmViewset.py:41-46 | always 200: the filtered update never raises DoesNotExist |
| FcmDevices.DestroyStatusIntended | onadata/apps/fieldsight/viewsets/FieldsightFcmViewset.py:41-46 | 200 iff some device has the id, 404 iff none has |
| FcmDevices.UnknownDeviceDestroyed | onadata/apps/fieldsight/viewsets/FieldsightFcmViewset.py:41-46 | an unknown device id is answered 200 where 404 was intended |
| FcmDevices.DeviceStore.constructor | onadata/apps/fieldsight/viewsets/FieldsightFcmViewset.py:12-13 | the table starts valid: unique device ids below the next row id |
| FcmDevices.DeviceStore.PerformCreate | onadata/apps/fieldsight/viewsets/FieldsightFcmViewset.py:25-39 | succeeds iff the name resolves; a failure changes nothing; a success leaves the upserted table |
| FcmDevices.DeviceStore.Destroy | onadata/apps/fieldsight/viewsets/FieldsightFcmViewset.py:41-46 | the devices with the id are switched off; the status is that of DestroyStatus |
| FcmDevices.DeviceStore.Inactivate | onadata/apps/fieldsight/viewsets/FieldsightFcmViewset.py:48-53 | the devices with the posted id are switched off; always 200 |
| FcmDevices.DeviceStore.PerformDestroy | onadata/apps/fieldsight/viewsets/FieldsightFcmViewset.py:55-57 | the row is kept, switched off, and nothing else changes |
| FcmDevices.DeactivatedKeepsIds | onadata/apps/fieldsight/viewsets/FieldsightFcmViewset.py:43-50 | switching off keeps every device id, so they stay unique |

## Left out

- ProjectRoleApiHasPermission: the view is taken to be a REST framework generic view. On a plain `APIView`, which has no `get_object`, the source's call raises AttributeError; this model does not represent such a view.
- Common.ParseInt: rejects surrounding whitespace, which Python's `int` strips and accepts, so a number written with spaces around it reads as a failure.
- SiteMetaAttribs.FormKey: a meta whose `form_id` is present but null reads as "0" like a missing one, where `int(None)` raises TypeError; the meta's JSON is modelled without a null/missing distinction for this key.
- ViewerViews.ProgressStep: the Google token step of `export_progress` (the redirect response returned when no token is stored) and the `message` text of a failed upload are not modelled; a failed upload only marks the entry as an error.
- Permission middleware: `request.roles`, `request.role`, `request.group`, `request.organization` and `request.is_super_admin` are inputs. The middleware that computes them is not part of this model.
- Hierarchy helpers: `get_parent_regions`, `get_parent_sites` and `get_staffs` are stored sets, not computed.
- Type conversions: URL keyword `pk` values are integers. `int()` failures are modelled only where the code parses explicitly.
- Python `is not ""`: modelled as string inequality.
- Integer width: all integers are unbounded; no source value is near a machine limit.
- Clocks: `datetime.now()`, `today()` and the week-ago time are parameters.
- `strftime` day formatting in the charts: a supplied function `fmt`.
- Dates: represented as day numbers. `strptime` leniency about single-digit fields is not modelled.
- MongoDB: aggregations (site visits, submission counts) are inputs, and the Mongo update of the fv3 site view is not modelled.
- External export calls: `create_async_export`, `generate_export` and the Google upload result are parameters or left out. The Export type names ("xls", "csv_zip", "sav_zip", "external", "gdoc") come from onadata's Export model, which is not part of this model.
- `SUBMISSION_TIME`: its tag value comes from onadata's common tags, which are not part of this model.
- Malformed JSON: `json.loads` failing on a malformed query string is not modelled.
- Background work: Celery task wrappers, `time.sleep` in share_xform.py, the FCM push after a role is saved, `audit_log`, history records and event-log rows are left out. They are side channels with no effect on the modelled state.
- Permission stores: `has_perm`'s superuser and group-permission paths are not modelled. Only the object-level grants the sharing functions write are.
- Floating point: locations (`Point`), progress percentages, the fractional keys of ProgressGeneratorSite and image crop/resize are not modelled.
- The raw SQL builders in siteMetaAttribs.py are left out.
- SiteMetaAttribs.Step: the Link recursion has no cycle guard in the source. A `fuel` bound stands in for it, and running out of fuel is reported as a failure where the source would recurse without end.
- Meta projectId: the meta attribute's projectId is assumed to be a JSON number. A missing `question_type` key is not represented.
- Fv3Views.MetaDiff: models the edit-log diff of `SiteForms.Update`, where `old_meta` is read before the update. The site update in onadata/apps/fv3/views.py:275-320 reads `old_meta` after its first `perform_update` (line 287 after line 279), so its old side is already the new answers. That update's edit log is not modelled; only its identifier check is.
- MySuperviseSites: pagination and order are not modelled; the sites are returned as a set.
- fv3 `perform_destroy`: deletion of the site's submissions is modelled only in the dashboard `destroy`.
- Dashboard lists: regions and site types are returned as rows. `get_submissions_count` is an input.
- SubStageSerializer.update: the `XForm.objects.get` lookup of the submitted id and the stage's own field updates are not modelled. `FieldSightXF.xf` is assumed non-null.
- RegexField: only the pattern and the length limit are modelled; whitespace stripping depends on the Django version. The other forms in forms.py are left out.
- SetProjectRoleForm: the user queryset is not modelled, only the group restriction.
- RegionForms.FieldFor: a `question_name` that is not a string gives no field, where the source would use it as a dictionary key.
- FCM serializer: validation in the device serializer and the response headers are not modelled.
- Event context: `FieldSightMessage.inbox` is an input, the log table order is the default ordering, and the WEBSOCKET settings are parameters.
- Other view code: views, viewsets and querysets of the repository outside the files cited in the table are not part of this model.
- `DeclineInvite`: it writes `is_declined` while other code filters on `is_declied`. The model field is not visible, so neither spelling is modelled.

## Findings

| source | as written | input that shows it | evidently intended | confidence | as-written member | corrected member |
|---|---|---|---|---|---|---|
| onadata/apps/fv3/viewsets/MyRolesViewset.py:67-80 | with a `profile` parameter, `user` is never bound before it is read | `?profile=5` for an existing profile 5 raises UnboundLocalError | look up the profile's user and compute `can_create_team` for it | not executed; high | MyRoles.ProfileParameterAlwaysFails | MyRoles.MyRolesCanCreateTeamIntended |
| onadata/apps/viewer/views.py:76-78 | Python 2 `strftime` with `accept2dyear` maps years 1 to 68 to 2001 to 2068 | a date in year 12 encodes as year 2012 | keep the year as parsed | not executed; medium | ViewerViews.EncodeShiftsEarlyYears | ViewerViews.EncodeIntended |
| onadata/apps/viewer/views.py:258-262 | `json.dumps` is applied to the HttpResponseBadRequest returned for a malformed start | a start value that is not a date, such as 'x', raises TypeError | answer 400 with the parse error | not executed; high | ViewerViews.MalformedStartCrashesDataExport | ViewerViews.DataExportQueryIntended |
| onadata/apps/viewer/views.py:500-502 | for an external export without an export address, `url` is read unbound | a successful external export with no stored `export_url`, and no Google upload earlier in the request, raises NameError | report the entry without a URL | not executed; high | ViewerViews.ExternalExportWithoutAddressCrashes | ViewerViews.ProgressStepIntended |
| onadata/apps/fv3/views.py:279-295 | the identifier conflict check reads the identifier after the update is saved | renaming site 2 of a project to site 1's identifier 'A' is saved and reports no conflict | check for the conflict before saving | not executed; high | Fv3Views.UpdateAdmitsDuplicate | Fv3Views.UpdateIdentifierIntended |
| onadata/apps/fv3/role_api_permissions.py:403-439 | `check_regional_perm` returns a 204 Response for an unknown region, and a Response is truthy | an unknown region id admits every requester | deny the request | not executed; high | RoleApiPermissions.UnknownRegionAdmitsEveryone | RoleApiPermissions.RegionalPermissionIntended |
| onadata/apps/userrole/models.py:139 | `update` ends with `super(UserRole, self).update(...)`, but `models.Model` has no `update` method | any call of `update`, such as on a Super Admin role, raises AttributeError after clearing the scope fields | write the derived row, as `save` does | not executed; medium | UserRoles.UserRole.Update | UserRoles.UserRole.UpdateIntended |
| onadata/apps/userrole/models.py:93 | the donor branch compares the group name with 'Project Doner' | a Project Donor role with a site keeps its site on save | clear site and region for a 'Project Donor' | not executed; high | UserRoles.DonorSaveKeepsStaleScope | UserRoles.SaveDerivationIntended |
| onadata/apps/fieldsight/viewsets/FieldsightFcmViewset.py:41-46 | a filtered `update` never raises DoesNotExist | destroying an unknown device id answers 200 | answer 404 when no device has the id | not executed; low | FcmDevices.UnknownDeviceDestroyed | FcmDevices.DestroyStatusIntended |
| onadata/apps/fv3/viewsets/FormsViewset.py:87-110 | project sharing selects roles by project, but `save` clears the project of Organization Admin roles | an Organization Admin of the project's organization is not among the recipients | include the organization admin, as the view's description says | not executed; medium | FormsViewset.OrgAdminMissesProjectShare | FormsViewset.ShareProjectRecipientsIntended |
| onadata/apps/fsforms/share_xform.py:13-14 | `share_m2m`'s second test re-checks 'change_xform' before granting 'view_xform' | sharing with a user who has neither permission grants only 'change_xform' | grant 'view_xform' too, as `share_o2o` does | not executed; high | ShareXform.M2MNeverGrantsView | ShareXform.GuardianStore.ShareM2MIntended |
