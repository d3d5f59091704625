/** fv3/viewsets/MyRolesViewset.py: the role tests the "my roles" views
  * share, `my_roles`' team-creation flag, and `AcceptInvite`, which turns an
  * invitation into UserRole rows with `get_or_create`. */
module MyRoles {
  import opened Common
  import opened UserRoles

  // ------------------------------------------------------------ queries

  /** `is_project_manager_or_team_admin(project, user)`: a PM or Donor role
    * of the user on the project while the project is active, or an Org
    * Admin role on its organization while the organization is active.
    * Ended roles are not filtered out. */
  function IsProjectManagerOrTeamAdmin(h: Hierarchy, store: seq<Role>, project: int, user: int): (b: bool)
    requires Wf(h) && project in h.projects
    ensures b <==> (exists x :: x in store && x.user == user &&
                     ((x.group in {ProjectManager, ProjectDonor} && x.project == Some(project) && h.projects[project].isActive) ||
                      (x.group == OrganizationAdmin && x.organization == Some(h.projects[project].organization) &&
                       h.organizations[h.projects[project].organization].isActive)))
  {
    var p := h.projects[project];
    var w := Where(OfUser(store, user), (x: Role) =>
      (x.group in {ProjectManager, ProjectDonor} && x.project == Some(project) && p.isActive) ||
      (x.group == OrganizationAdmin && x.organization == Some(p.organization) && h.organizations[p.organization].isActive));
    assert w != [] ==> w[0] in w;
    w != []
  }

  /** The user's roles on the project whose group has one of `names`. */
  function RolesNamed(store: seq<Role>, project: int, user: int, names: set<string>): (r: seq<Role>)
    ensures forall x :: x in r <==> x in store && x.user == user && x.project == Some(project) && GroupName(x.group) in names
  {
    Where(store, (x: Role) => x.user == user && x.project == Some(project) && GroupName(x.group) in names)
  }

  lemma SiteNamesAreSupervisors()
    ensures forall g: Group :: GroupName(g) in {"Site Supervisor", "Site Reviewer"} <==> g == SiteSupervisor
    ensures forall g: Group :: GroupName(g) in {"Region Supervisor", "Region Reviewer"} <==> g in {RegionSupervisor, RegionReviewer}
  {
    forall g: Group ensures GroupName(g) in {"Site Supervisor", "Site Reviewer"} <==> g == SiteSupervisor {
      match g
      case SuperAdmin =>
      case OrganizationAdmin =>
      case ProjectManager =>
      case SiteSupervisor =>
      case Reviewer =>
      case Unassigned =>
      case ProjectDonor =>
      case StaffProjectManager =>
      case RegionReviewer =>
      case RegionSupervisor =>
    }
  }

  /** The distinct sites of the user's roles named "Site Supervisor" or
    * "Site Reviewer" on the project. No group is called "Site Reviewer",
    * so only Site Supervisor roles contribute. */
  function SupervisedSiteIds(store: seq<Role>, project: int, user: int): (r: seq<Option<int>>)
    ensures forall o :: o in r <==>
      exists x :: x in store && x.user == user && x.project == Some(project) && x.group == SiteSupervisor && x.site == o
    ensures forall i, j :: 0 <= i < j < |r| ==> r[i] != r[j]
  {
    SiteNamesAreSupervisors();
    var named := RolesNamed(store, project, user, {"Site Supervisor", "Site Reviewer"});
    var sites := Map(named, (x: Role) => x.site);
    SitesOfSupervisorRoles(store, project, user, named, sites);
    Distinct(sites)
  }

  /** The sites of a list holding exactly the user's Site Supervisor roles
    * on the project are exactly the sites those roles name. */
  lemma SitesOfSupervisorRoles(store: seq<Role>, project: int, user: int, named: seq<Role>, sites: seq<Option<int>>)
    requires forall x :: x in named <==> x in store && x.user == user && x.project == Some(project) && x.group == SiteSupervisor
    requires |sites| == |named| && forall i :: 0 <= i < |named| ==> sites[i] == named[i].site
    ensures forall o :: o in sites <==>
      exists x :: x in store && x.user == user && x.project == Some(project) && x.group == SiteSupervisor && x.site == o
  {
    forall o ensures o in sites <==>
      exists x :: x in store && x.user == user && x.project == Some(project) && x.group == SiteSupervisor && x.site == o {
      if o in sites {
        var i :| 0 <= i < |sites| && sites[i] == o;
        assert named[i] in named;
      }
      if exists x :: x in store && x.user == user && x.project == Some(project) && x.group == SiteSupervisor && x.site == o {
        var x :| x in store && x.user == user && x.project == Some(project) && x.group == SiteSupervisor && x.site == o;
        assert x in named;
        var i :| 0 <= i < |named| && named[i] == x;
        assert sites[i] == o;
      }
    }
  }

  /** The regions of the user's roles named "Region Supervisor" or "Region
    * Reviewer" on the project (a null region matches no site). */
  function RegionIdsOf(store: seq<Role>, project: int, user: int): (r: set<int>)
    ensures forall g :: g in r <==>
      exists x :: x in store && x.user == user && x.project == Some(project) && x.group in {RegionSupervisor, RegionReviewer} &&
        x.region == Some(g)
  {
    SiteNamesAreSupervisors();
    var named := RolesNamed(store, project, user, {"Region Supervisor", "Region Reviewer"});
    var r := set x | x in named && x.region.Some? :: x.region.value;
    assert forall g :: g in r <==>
      exists x :: x in store && x.user == user && x.project == Some(project) && x.group in {RegionSupervisor, RegionReviewer} &&
        x.region == Some(g) by {
      forall g ensures g in r <==>
        exists x :: x in store && x.user == user && x.project == Some(project) && x.group in {RegionSupervisor, RegionReviewer} &&
          x.region == Some(g) {
        if exists x :: x in store && x.user == user && x.project == Some(project) && x.group in {RegionSupervisor, RegionReviewer} &&
             x.region == Some(g) {
          var x :| x in store && x.user == user && x.project == Some(project) && x.group in {RegionSupervisor, RegionReviewer} &&
                   x.region == Some(g);
          assert x in named;
        }
      }
    }
    r
  }

  /** Every site, in `siteOrder` (the order the table returns them), whose
    * region is one of the user's supervised or reviewed regions. */
  function RegionSiteIds(h: Hierarchy, store: seq<Role>, project: int, user: int, siteOrder: seq<int>): (r: seq<Option<int>>)
    ensures forall o :: o in r <==>
      (o.Some? && o.value in siteOrder && o.value in h.sites && h.sites[o.value].region.Some? &&
       h.sites[o.value].region.value in RegionIdsOf(store, project, user))
  {
    var regionIds := RegionIdsOf(store, project, user);
    var ids := Where(siteOrder, (s: int) => s in h.sites && h.sites[s].region.Some? && h.sites[s].region.value in regionIds);
    var m := Map(ids, (s: int) => Some(s));
    assert forall o :: o in m <==> o.Some? && o.value in ids by {
      forall o ensures o in m <==> o.Some? && o.value in ids {
        if o in m {
          var i :| 0 <= i < |m| && m[i] == o;
        }
        if o.Some? && o.value in ids {
          var i :| 0 <= i < |ids| && ids[i] == o.value;
          assert m[i] == o;
        }
      }
    }
    m
  }

  /** `my_site_ids(project, user)`: the supervised sites followed by the
    * sites of the supervised or reviewed regions. Reviewer roles add
    * nothing. */
  function MySiteIds(h: Hierarchy, store: seq<Role>, project: int, user: int, siteOrder: seq<int>): (r: seq<Option<int>>)
    ensures forall o :: o in r <==>
      SupervisesSite(store, project, user, o) || InSupervisedRegion(h, store, project, user, siteOrder, o)
    ensures var n := |SupervisedSiteIds(store, project, user)|;
      n <= |r| &&
      (forall i :: 0 <= i < n ==> SupervisesSite(store, project, user, r[i])) &&
      (forall i, j :: 0 <= i < j < n ==> r[i] != r[j]) &&
      (forall i :: n <= i < |r| ==> InSupervisedRegion(h, store, project, user, siteOrder, r[i]))
  {
    SupervisedThenRegional(h, store, project, user, siteOrder);
    SupervisedSiteIds(store, project, user) + RegionSiteIds(h, store, project, user, siteOrder)
  }

  /** The supervised sites, then the sites of the supervised regions, make
    * the listing `my_site_ids` describes. */
  lemma SupervisedThenRegional(h: Hierarchy, store: seq<Role>, project: int, user: int, siteOrder: seq<int>)
    ensures var a := SupervisedSiteIds(store, project, user);
      var r := a + RegionSiteIds(h, store, project, user, siteOrder);
      (forall o :: o in r <==> SupervisesSite(store, project, user, o) || InSupervisedRegion(h, store, project, user, siteOrder, o)) &&
      (forall i :: 0 <= i < |a| ==> SupervisesSite(store, project, user, r[i])) &&
      (forall i, j :: 0 <= i < j < |a| ==> r[i] != r[j]) &&
      (forall i :: |a| <= i < |r| ==> InSupervisedRegion(h, store, project, user, siteOrder, r[i]))
  {
    var a := SupervisedSiteIds(store, project, user);
    var b := RegionSiteIds(h, store, project, user, siteOrder);
    var r := a + b;
    forall o ensures o in b <==> InSupervisedRegion(h, store, project, user, siteOrder, o) {
      if o in b {
        var g := h.sites[o.value].region.value;
        assert g in RegionIdsOf(store, project, user);
      }
    }
    forall i | 0 <= i < |a| ensures r[i] == a[i] && SupervisesSite(store, project, user, r[i]) {
      assert a[i] in a;
    }
    forall i | |a| <= i < |r| ensures r[i] == b[i - |a|] && InSupervisedRegion(h, store, project, user, siteOrder, r[i]) {
      assert b[i - |a|] in b;
    }
  }

  /** A site the user supervises on the project through a "Site
    * Supervisor" or "Site Reviewer" role. */
  predicate SupervisesSite(store: seq<Role>, project: int, user: int, o: Option<int>)
  {
    exists x :: x in store && x.user == user && x.project == Some(project) && x.group == SiteSupervisor && x.site == o
  }

  /** A site, listed in `siteOrder`, of a region the user supervises or
    * reviews on the project. */
  predicate InSupervisedRegion(h: Hierarchy, store: seq<Role>, project: int, user: int, siteOrder: seq<int>, o: Option<int>)
  {
    o.Some? && o.value in siteOrder && o.value in h.sites && h.sites[o.value].region.Some? &&
    exists x :: x in store && x.user == user && x.project == Some(project) && x.group in {RegionSupervisor, RegionReviewer} &&
      x.region == h.sites[o.value].region
  }

  /** A site the user supervises directly and also through its region is
    * listed twice. */
  lemma SiteReachedTwiceIsListedTwice(h: Hierarchy, store: seq<Role>, project: int, user: int, siteOrder: seq<int>, s: Role, g: Role)
    requires s in store && s.user == user && s.project == Some(project) && s.group == SiteSupervisor && s.site.Some?
    requires g in store && g.user == user && g.project == Some(project) && g.group == RegionSupervisor
    requires s.site.value in siteOrder && s.site.value in h.sites && h.sites[s.site.value].region == g.region && g.region.Some?
    ensures multiset(MySiteIds(h, store, project, user, siteOrder))[s.site] >= 2
  {
    var a := SupervisedSiteIds(store, project, user);
    var b := RegionSiteIds(h, store, project, user, siteOrder);
    assert s.site in a;
    assert s.site in b;
    assert multiset(a + b) == multiset(a) + multiset(b);
  }

  /** `can_create_team` of `my_roles` as written: with a 'profile'
    * parameter the view never binds `user` and raises before answering;
    * `profiles` is the set of user ids that have a profile. None: the
    * request fails. */
  function MyRolesCanCreateTeam(userOrganizations: set<int>, profileParam: Option<string>, profiles: set<int>): (r: Option<bool>)
    ensures profileParam.Some? ==> r.None?
    ensures profileParam.None? ==> r == Some(userOrganizations == {})
  {
    if profileParam.Some? then
      match ParseInt(profileParam.value)
      case None => None
      case Some(id) => if id in profiles then None else None
    else Some(userOrganizations == {})
  }

  /** Looking at anybody's roles through the 'profile' parameter fails. */
  lemma ProfileParameterAlwaysFails(userOrganizations: set<int>, profiles: set<int>)
    requires 5 in profiles
    ensures MyRolesCanCreateTeam(userOrganizations, Some("5"), profiles).None?
  {
  }

  /** `can_create_team` as evidently intended, with `user` bound to the
    * profile's user: true only without organizations and without a
    * 'profile' parameter. */
  function MyRolesCanCreateTeamIntended(userOrganizations: set<int>, profileParam: Option<string>, profiles: set<int>): (r: Option<bool>)
    ensures r == Some(true) <==> userOrganizations == {} && profileParam.None?
    ensures r.None? <==> profileParam.Some? && !(ParseInt(profileParam.value).Some? && ParseInt(profileParam.value).value in profiles)
  {
    if profileParam.Some? then
      match ParseInt(profileParam.value)
      case None => None
      case Some(id) => if id in profiles then Some(false) else None
    else Some(userOrganizations == {})
  }

  // ------------------------------------------------------ AcceptInvite

  /** The invitation fields `AcceptInvite` reads; the many-to-many lists are
    * in the order the table returns them. */
  datatype InviteData = InviteData(group: Group, organization: int, projects: seq<int>,
                                   sites: seq<int>, regions: seq<int>)

  /** An invitation row; only `is_used` is written. */
  class Invitation {
    const data: InviteData
    var isUsed: bool

    constructor (d: InviteData, used: bool)
      ensures data == d && isUsed == used
    {
      data := d;
      isUsed := used;
    }
  }

  /** The accepting user's profile; only `organization` is written. */
  class UserProfile {
    var organization: Option<int>

    constructor (o: Option<int>)
      ensures organization == o
    {
      organization := o;
    }
  }

  predicate InviteResolves(h: Hierarchy, inv: InviteData)
  {
    inv.organization in h.organizations &&
    (forall p :: p in inv.projects ==> p in h.projects) &&
    (forall s :: s in inv.sites ==> s in h.sites) &&
    (forall i :: 0 <= i < |inv.regions| ==> inv.regions[i] in h.regions)
  }

  /** The region part of a `get_or_create` lookup: fixed to a value, or not
    * part of the lookup at all. */
  datatype RegionPin = AnyRegion | RegionIs(region: Option<int>)

  /** The keyword arguments of one `get_or_create` call. */
  datatype RoleLookup = RoleLookup(user: int, group: Group, organization: int, project: Option<int>,
                                   site: Option<int>, region: RegionPin)

  predicate Matches(x: Role, k: RoleLookup)
  {
    x.user == k.user && x.group == k.group && x.organization == Some(k.organization) &&
    x.project == k.project && x.site == k.site && (k.region.RegionIs? ==> x.region == k.region.region)
  }

  function Matching(rows: seq<Role>, k: RoleLookup): (r: seq<Role>)
    ensures forall x :: x in r <==> x in rows && Matches(x, k)
  {
    Where(rows, (x: Role) => Matches(x, k))
  }

  /** The row `create` builds from the lookup before `save` runs. */
  function Fresh(k: RoleLookup, id: int, now: int): Role
  {
    Role(id, k.user, k.group, Some(k.organization), k.project,
         if k.region.RegionIs? then k.region.region else None, k.site, None, now, None)
  }

  /** Every id in the lookup names an existing row; creating a role
    * from a lookup that does not resolve fails. */
  predicate LookupResolves(h: Hierarchy, k: RoleLookup)
  {
    RefsResolve(h, Fresh(k, 0, 0))
  }

  datatype Table = Table(rows: seq<Role>, nextId: int)

  /** The table after a run of calls, and whether every call returned. */
  datatype Run = Run(table: Table, ok: bool)

  /** Row ids are below the next id the table hands out. */
  predicate IdsBelow(t: Table)
  {
    forall x :: x in t.rows ==> x.id < t.nextId
  }

  /** The row a lookup produced: one matching it, or the row `save` made
    * from it. */
  predicate Covered(h: Hierarchy, rows: seq<Role>, k: RoleLookup)
    requires Wf(h)
  {
    exists x :: x in rows && (Matches(x, k) || (LookupResolves(h, k) && CreatedFrom(h, x, k)))
  }

  predicate CreatedFrom(h: Hierarchy, x: Role, k: RoleLookup)
    requires Wf(h) && LookupResolves(h, k)
  {
    assert RefsResolve(h, Fresh(k, x.id, x.startedAt)) by { assert LookupResolves(h, k); }
    SaveDerivation(h, Fresh(k, x.id, x.startedAt)) == Some(x)
  }

  /** `UserRole.objects.get_or_create(**k)`: one matching row is returned;
    * more than one raises MultipleObjectsReturned; none creates a row with
    * the next id, which `save` normalises (and may fail on), after the
    * insert has failed on an id that names no row. */
  function GetOrCreate(h: Hierarchy, t: Table, k: RoleLookup, now: int): (r: Run)
    requires Wf(h)
    ensures |Matching(t.rows, k)| == 1 ==> r == Run(t, true)
    ensures |Matching(t.rows, k)| > 1 ==> r == Run(t, false)
  {
    var found := Matching(t.rows, k);
    if |found| == 1 then Run(t, true)
    else if |found| > 1 then Run(t, false)
    else if !LookupResolves(h, k) then Run(t, false)
    else
      assert RefsResolve(h, Fresh(k, t.nextId, now)) by { assert LookupResolves(h, k); }
      match SaveDerivation(h, Fresh(k, t.nextId, now))
      case None => Run(t, false)
      case Some(x) => Run(Table(t.rows + [x], t.nextId + 1), true)
  }

  /** Without a matching row, `get_or_create` fails on an id naming no row
    * or when `save` refuses the row, and otherwise appends the row `save`
    * made, for the lookup's user and group, with the next id. */
  lemma GetOrCreateCreates(h: Hierarchy, t: Table, k: RoleLookup, now: int)
    requires Wf(h) && |Matching(t.rows, k)| == 0
    ensures !LookupResolves(h, k) ==> GetOrCreate(h, t, k, now) == Run(t, false)
    ensures LookupResolves(h, k) ==>
      RefsResolve(h, Fresh(k, t.nextId, now)) &&
      match SaveDerivation(h, Fresh(k, t.nextId, now))
      case None => GetOrCreate(h, t, k, now) == Run(t, false)
      case Some(x) => GetOrCreate(h, t, k, now) == Run(Table(t.rows + [x], t.nextId + 1), true) &&
                      x.user == k.user && x.group == k.group && x.id == t.nextId
  {
  }

  /** A call that returns leaves a row for the lookup, and only ever
    * appends. */
  lemma GetOrCreateCovers(h: Hierarchy, t: Table, k: RoleLookup, now: int)
    requires Wf(h)
    ensures var r := GetOrCreate(h, t, k, now);
      t.rows <= r.table.rows && |r.table.rows| <= |t.rows| + 1 &&
      (r.ok ==> Covered(h, r.table.rows, k)) && (IdsBelow(t) ==> IdsBelow(r.table)) &&
      (|r.table.rows| == |t.rows| + 1 ==> r.table.rows[|t.rows|].user == k.user && r.table.rows[|t.rows|].group == k.group)
  {
    var found := Matching(t.rows, k);
    var r := GetOrCreate(h, t, k, now);
    if |found| == 1 {
      assert found[0] in found;
    } else if |found| == 0 && LookupResolves(h, k) {
      GetOrCreateCreates(h, t, k, now);
      if r.ok {
        var x := r.table.rows[|t.rows|];
        assert x in r.table.rows;
        assert CreatedFrom(h, x, k);
      }
    }
  }

  /** Calls `get_or_create` for each lookup in order, stopping at the first
    * that raises. */
  function ExpandAll(h: Hierarchy, t: Table, ks: seq<RoleLookup>, now: int): Run
    requires Wf(h)
    decreases |ks|
  {
    if ks == [] then Run(t, true)
    else
      var r := ExpandAll(h, t, ks[..|ks| - 1], now);
      if !r.ok then r else GetOrCreate(h, r.table, ks[|ks| - 1], now)
  }

  /** A one-lookup extension of a run. */
  lemma {:induction false} ExpandAllSnoc(h: Hierarchy, t: Table, ks: seq<RoleLookup>, k: RoleLookup, now: int)
    requires Wf(h)
    ensures var r := ExpandAll(h, t, ks, now);
      ExpandAll(h, t, ks + [k], now) == if !r.ok then r else GetOrCreate(h, r.table, k, now)
  {
    assert (ks + [k])[..|ks|] == ks;
  }

  /** Once a call raises, later lookups change nothing. */
  lemma {:induction false} ExpandAllStopsAtFailure(h: Hierarchy, t: Table, a: seq<RoleLookup>, b: seq<RoleLookup>, now: int)
    requires Wf(h)
    requires !ExpandAll(h, t, a, now).ok
    ensures ExpandAll(h, t, a + b, now) == ExpandAll(h, t, a, now)
    decreases |b|
  {
    if b == [] {
      assert a + b == a;
    } else {
      var b' := b[..|b| - 1];
      assert a + b == (a + b') + [b[|b| - 1]];
      assert forall x :: x in a + b' ==> x in a + b;
      ExpandAllStopsAtFailure(h, t, a, b', now);
      ExpandAllSnoc(h, t, a + b', b[|b| - 1], now);
    }
  }

  /** A run only appends rows, and each row it creates belongs to the user
    * and group of one of its lookups. */
  lemma {:induction false} ExpandAllAppends(h: Hierarchy, t: Table, ks: seq<RoleLookup>, now: int)
    requires Wf(h)
    ensures var r := ExpandAll(h, t, ks, now);
      t.rows <= r.table.rows &&
      forall x :: x in r.table.rows[|t.rows|..] ==> exists k :: k in ks && x.user == k.user && x.group == k.group
    decreases |ks|
  {
    if ks != [] {
      var ks' := ks[..|ks| - 1];
      var k := ks[|ks| - 1];
      assert forall x :: x in ks' ==> x in ks;
      ExpandAllAppends(h, t, ks', now);
      var r0 := ExpandAll(h, t, ks', now);
      if r0.ok {
        var r := GetOrCreate(h, r0.table, k, now);
        GetOrCreateCovers(h, r0.table, k, now);
        forall x | x in r.table.rows[|t.rows|..]
          ensures exists k' :: k' in ks && x.user == k'.user && x.group == k'.group
        {
          var i :| |t.rows| <= i < |r.table.rows| && r.table.rows[i] == x;
          if i < |r0.table.rows| {
            assert x in r0.table.rows[|t.rows|..];
          } else {
            assert x.user == k.user && x.group == k.group;
          }
        }
      }
    }
  }

  /** A run keeps every row id below the next id. */
  lemma {:induction false} ExpandAllKeepsIdsBelow(h: Hierarchy, t: Table, ks: seq<RoleLookup>, now: int)
    requires Wf(h) && IdsBelow(t)
    ensures IdsBelow(ExpandAll(h, t, ks, now).table)
    decreases |ks|
  {
    if ks != [] {
      assert forall x :: x in ks[..|ks| - 1] ==> x in ks;
      ExpandAllKeepsIdsBelow(h, t, ks[..|ks| - 1], now);
      GetOrCreateCovers(h, ExpandAll(h, t, ks[..|ks| - 1], now).table, ks[|ks| - 1], now);
    }
  }

  /** A successful run leaves a row for every lookup. */
  lemma {:induction false} ExpandAllCovers(h: Hierarchy, t: Table, ks: seq<RoleLookup>, now: int)
    requires Wf(h)
    ensures ExpandAll(h, t, ks, now).ok ==> forall k :: k in ks ==> Covered(h, ExpandAll(h, t, ks, now).table.rows, k)
    decreases |ks|
  {
    if ks != [] {
      var ks' := ks[..|ks| - 1];
      var k := ks[|ks| - 1];
      assert forall x :: x in ks' ==> x in ks;
      ExpandAllCovers(h, t, ks', now);
      var r0 := ExpandAll(h, t, ks', now);
      var r := GetOrCreate(h, r0.table, k, now);
      GetOrCreateCovers(h, r0.table, k, now);
      if r0.ok && r.ok {
        forall k' | k' in ks ensures Covered(h, r.table.rows, k') {
          if k' != k {
            assert k' in ks';
            var x :| x in r0.table.rows && (Matches(x, k') || (LookupResolves(h, k') && CreatedFrom(h, x, k')));
            assert x in r.table.rows;
          }
        }
      }
    }
  }

  /** The lookups of the region branch: one per region, with the region's
    * project and no site. */
  function RegionKeys(h: Hierarchy, inv: InviteData, u: int, regions: seq<int>): (ks: seq<RoleLookup>)
    requires forall i :: 0 <= i < |regions| ==> regions[i] in h.regions
    ensures |ks| == |regions|
    ensures forall i :: 0 <= i < |regions| ==>
      ks[i] == RoleLookup(u, inv.group, inv.organization, Some(h.regions[regions[i]].project), None, RegionIs(Some(regions[i])))
  {
    if regions == [] then []
    else RegionKeys(h, inv, u, regions[..|regions| - 1]) +
         [RoleLookup(u, inv.group, inv.organization, Some(h.regions[regions[|regions| - 1]].project), None,
                     RegionIs(Some(regions[|regions| - 1])))]
  }

  /** The lookups for one project and each site, in the inner loop. */
  function SiteKeys(inv: InviteData, u: int, p: int, sites: seq<int>): (ks: seq<RoleLookup>)
    ensures |ks| == |sites|
    ensures forall i :: 0 <= i < |sites| ==> ks[i] == RoleLookup(u, inv.group, inv.organization, Some(p), Some(sites[i]), AnyRegion)
  {
    if sites == [] then []
    else SiteKeys(inv, u, p, sites[..|sites| - 1]) +
         [RoleLookup(u, inv.group, inv.organization, Some(p), Some(sites[|sites| - 1]), AnyRegion)]
  }

  /** All lookups for one project: one per site, or a site-less one when
    * the invitation names no site. */
  function PerProject(inv: InviteData, u: int, p: int): seq<RoleLookup>
  {
    SiteKeys(inv, u, p, inv.sites) +
    (if inv.sites == [] then [RoleLookup(u, inv.group, inv.organization, Some(p), None, AnyRegion)] else [])
  }

  function ProjectKeys(inv: InviteData, u: int, projects: seq<int>): (ks: seq<RoleLookup>)
  {
    if projects == [] then []
    else ProjectKeys(inv, u, projects[..|projects| - 1]) + PerProject(inv, u, projects[|projects| - 1])
  }

  function OrgKey(inv: InviteData, u: int): RoleLookup
  {
    RoleLookup(u, inv.group, inv.organization, None, None, RegionIs(None))
  }

  /** Every `get_or_create` lookup `AcceptInvite` makes, in order. */
  function Keys(h: Hierarchy, inv: InviteData, u: int): (ks: seq<RoleLookup>)
    requires InviteResolves(h, inv)
  {
    MainKeys(h, inv, u) + (if inv.projects == [] then [OrgKey(inv, u)] else [])
  }

  /** The lookups of the region branch, or else of the project loop. */
  function MainKeys(h: Hierarchy, inv: InviteData, u: int): (ks: seq<RoleLookup>)
    requires InviteResolves(h, inv)
  {
    if inv.regions != [] then RegionKeys(h, inv, u, inv.regions) else ProjectKeys(inv, u, inv.projects)
  }

  lemma {:induction false} ProjectKeysMembers(inv: InviteData, u: int, projects: seq<int>, k: RoleLookup)
    ensures k in ProjectKeys(inv, u, projects) <==>
      exists p :: p in projects && k in PerProject(inv, u, p)
    decreases |projects|
  {
    if projects != [] {
      var ps := projects[..|projects| - 1];
      ProjectKeysMembers(inv, u, ps, k);
      assert forall p :: p in projects <==> p in ps || p == projects[|projects| - 1] by {
        assert projects == ps + [projects[|projects| - 1]];
      }
    }
  }

  /** The role expansion: with regions, one role per region under the
    * region's project and no site; without regions, one role per
    * (project, site) pair, or one site-less role per project when there are
    * no sites; and with no projects, an organization-level role as well,
    * even when regions were given. */
  lemma {:induction false} KeysOfInvitation(h: Hierarchy, inv: InviteData, u: int, k: RoleLookup)
    requires InviteResolves(h, inv)
    ensures k in Keys(h, inv, u) <==>
      (inv.projects == [] && k == OrgKey(inv, u)) ||
      (inv.regions != [] &&
       exists g :: g in inv.regions &&
                   k == RoleLookup(u, inv.group, inv.organization, Some(h.regions[g].project), None, RegionIs(Some(g)))) ||
      (inv.regions == [] && inv.sites != [] &&
       exists p, s :: p in inv.projects && s in inv.sites &&
                      k == RoleLookup(u, inv.group, inv.organization, Some(p), Some(s), AnyRegion)) ||
      (inv.regions == [] && inv.sites == [] &&
       exists p :: p in inv.projects && k == RoleLookup(u, inv.group, inv.organization, Some(p), None, AnyRegion))
  {
    if inv.regions != [] {
      var rk := RegionKeys(h, inv, u, inv.regions);
      if k in rk {
        var i :| 0 <= i < |rk| && rk[i] == k;
        assert inv.regions[i] in inv.regions;
      }
      if exists g :: g in inv.regions &&
           k == RoleLookup(u, inv.group, inv.organization, Some(h.regions[g].project), None, RegionIs(Some(g))) {
        var g :| g in inv.regions &&
           k == RoleLookup(u, inv.group, inv.organization, Some(h.regions[g].project), None, RegionIs(Some(g)));
        var i :| 0 <= i < |inv.regions| && inv.regions[i] == g;
        assert rk[i] == k;
      }
    } else {
      ProjectKeysMembers(inv, u, inv.projects, k);
      if inv.sites != [] {
        if exists p :: p in inv.projects && k in PerProject(inv, u, p) {
          var p :| p in inv.projects && k in PerProject(inv, u, p);
          var sk := SiteKeys(inv, u, p, inv.sites);
          assert PerProject(inv, u, p) == sk;
          var i :| 0 <= i < |sk| && sk[i] == k;
          assert inv.sites[i] in inv.sites;
        }
        if exists p, s :: p in inv.projects && s in inv.sites &&
             k == RoleLookup(u, inv.group, inv.organization, Some(p), Some(s), AnyRegion) {
          var p, s :| p in inv.projects && s in inv.sites &&
             k == RoleLookup(u, inv.group, inv.organization, Some(p), Some(s), AnyRegion);
          var i :| 0 <= i < |inv.sites| && inv.sites[i] == s;
          assert SiteKeys(inv, u, p, inv.sites)[i] == k;
          assert k in PerProject(inv, u, p);
        }
      } else {
        forall p ensures PerProject(inv, u, p) == [RoleLookup(u, inv.group, inv.organization, Some(p), None, AnyRegion)] {
        }
      }
    }
  }

  /** The notification type of the log `AcceptInvite` writes. None: the
    * code raises, because it indexes an empty project list or, for a group
    * it has no branch for, reads an unbound `noti_type`. */
  function NotificationType(inv: InviteData): (r: Option<int>)
    ensures r.None? <==>
      inv.group in {SuperAdmin, StaffProjectManager} ||
      (inv.group in {ProjectManager, Reviewer, SiteSupervisor, RegionReviewer, RegionSupervisor, ProjectDonor} && inv.projects == [])
    ensures r.Some? ==> r.value in {1, 2, 3, 4, 24, 25, 26, 27, 28, 37, 38, 39, 40}
    ensures r == Some(2) <==> inv.group == ProjectManager && |inv.projects| == 1
    ensures r == Some(26) <==> inv.group == ProjectManager && |inv.projects| > 1
    ensures r == Some(3) || r == Some(4) ==> |inv.sites| == 1 && inv.projects != []
    ensures r == Some(37) || r == Some(38) ==> |inv.regions| == 1 && inv.projects != []
    ensures r == Some(27) || r == Some(28) || r == Some(39) || r == Some(40) ==> inv.projects != []
  {
    match inv.group
    case OrganizationAdmin => Some(1)
    case ProjectManager => if |inv.projects| == 1 then Some(2) else if inv.projects == [] then None else Some(26)
    case Reviewer => if inv.projects == [] then None else if |inv.sites| == 1 then Some(3) else Some(27)
    case SiteSupervisor => if inv.projects == [] then None else if |inv.sites| == 1 then Some(4) else Some(28)
    case RegionReviewer => if inv.projects == [] then None else if |inv.regions| == 1 then Some(37) else Some(39)
    case RegionSupervisor => if inv.projects == [] then None else if |inv.regions| == 1 then Some(38) else Some(40)
    case Unassigned => Some(24)
    case ProjectDonor => if inv.projects == [] then None else Some(25)
    case SuperAdmin => None
    case StaffProjectManager => None
  }

  datatype AcceptResponse = Accepted | BadRequest | ServerError

  datatype AcceptOutcome = AcceptOutcome(response: AcceptResponse, table: Table, profileOrganization: Option<int>,
                                         isUsed: bool, grantsChangeFinstance: bool)

  /** The table with every Unassigned role of the user deleted. */
  function WithoutUnassigned(t: Table, u: int): (r: Table)
    ensures forall x :: x in r.rows <==> x in t.rows && !(x.user == u && x.group == Unassigned)
    ensures r.nextId == t.nextId
  {
    Table(Where(t.rows, (x: Role) => !(x.user == u && x.group == Unassigned)), t.nextId)
  }

  /** What `AcceptInvite.post` does, as a function of the state it starts
    * from. `user` is None when no user has the URL's username. */
  function AcceptSpec(h: Hierarchy, t: Table, profileOrg: Option<int>, isUsed: bool, user: Option<int>,
                      inv: InviteData, now: int): AcceptOutcome
    requires Wf(h) && InviteResolves(h, inv)
  {
    if user.None? || isUsed then AcceptOutcome(BadRequest, t, profileOrg, isUsed, false)
    else
      var u := user.value;
      var org := if profileOrg.None? then Some(inv.organization) else profileOrg;
      var mine := OfUser(t.rows, u);
      if mine == [] then AcceptOutcome(ServerError, t, org, false, false)
      else
        var t1 := StartTable(t, u);
        var run := ExpandAll(h, t1, Keys(h, inv, u), now);
        if !run.ok then AcceptOutcome(ServerError, run.table, org, false, false)
        else AcceptOutcome(if NotificationType(inv).Some? then Accepted else ServerError, run.table, org, true,
                           inv.projects == [] && inv.group == OrganizationAdmin)
  }

  lemma KeysResolve(h: Hierarchy, inv: InviteData, u: int)
    requires Wf(h) && InviteResolves(h, inv)
    ensures forall k :: k in Keys(h, inv, u) ==> LookupResolves(h, k)
  {
    forall k | k in Keys(h, inv, u) ensures LookupResolves(h, k) {
      KeysOfInvitation(h, inv, u, k);
    }
  }

  /** A used invitation, or an unknown user, is refused and nothing
    * changes. */
  lemma UsedInvitationIsRefused(h: Hierarchy, t: Table, profileOrg: Option<int>, user: Option<int>, inv: InviteData, now: int)
    requires Wf(h) && InviteResolves(h, inv)
    ensures AcceptSpec(h, t, profileOrg, true, user, inv, now) == AcceptOutcome(BadRequest, t, profileOrg, true, false)
  {
  }

  /** The table the expansion starts from: the user's Unassigned roles are
    * deleted first when the user's first role is Unassigned. */
  function StartTable(t: Table, u: int): Table
  {
    var mine := OfUser(t.rows, u);
    if mine != [] && mine[0].group == Unassigned then WithoutUnassigned(t, u) else t
  }

  /** An accepted invitation is used afterwards, the profile has an
    * organization, and every lookup of the expansion has its row. */
  lemma {:induction false} AcceptedInvitationCoversEveryLookup(h: Hierarchy, t: Table, profileOrg: Option<int>, u: int,
                                                               inv: InviteData, now: int)
    requires Wf(h) && InviteResolves(h, inv)
    ensures var o := AcceptSpec(h, t, profileOrg, false, Some(u), inv, now);
      o.response == Accepted ==>
        o.isUsed && o.profileOrganization.Some? &&
        (profileOrg.None? ==> o.profileOrganization == Some(inv.organization)) &&
        (forall k :: k in Keys(h, inv, u) ==> Covered(h, o.table.rows, k))
  {
    KeysResolve(h, inv, u);
    ExpandAllCovers(h, StartTable(t, u), Keys(h, inv, u), now);
  }

  /** Accepting an invitation deletes no row except the user's Unassigned
    * roles. */
  lemma {:induction false} AcceptingKeepsOtherRows(h: Hierarchy, t: Table, profileOrg: Option<int>, u: int,
                                                   inv: InviteData, now: int)
    requires Wf(h) && InviteResolves(h, inv)
    ensures var o := AcceptSpec(h, t, profileOrg, false, Some(u), inv, now);
      forall x :: x in t.rows && !(x.user == u && x.group == Unassigned) ==> x in o.table.rows
  {
    KeysResolve(h, inv, u);
    var t1 := StartTable(t, u);
    ExpandAllAppends(h, t1, Keys(h, inv, u), now);
    forall x | x in t.rows && !(x.user == u && x.group == Unassigned) ensures x in t1.rows {
    }
  }

  /** When the user's first role is Unassigned and the invitation is for a
    * real group, no Unassigned role of the user survives an accepted
    * invitation. */
  lemma {:induction false} AcceptingReplacesUnassigned(h: Hierarchy, t: Table, profileOrg: Option<int>, u: int,
                                                       inv: InviteData, now: int)
    requires Wf(h) && InviteResolves(h, inv)
    requires OfUser(t.rows, u) != [] && OfUser(t.rows, u)[0].group == Unassigned && inv.group != Unassigned
    ensures var o := AcceptSpec(h, t, profileOrg, false, Some(u), inv, now);
      forall x :: x in o.table.rows ==> !(x.user == u && x.group == Unassigned)
  {
    KeysResolve(h, inv, u);
    var t1 := StartTable(t, u);
    var ks := Keys(h, inv, u);
    ExpandAllAppends(h, t1, ks, now);
    var rows := ExpandAll(h, t1, ks, now).table.rows;
    forall x | x in rows ensures !(x.user == u && x.group == Unassigned) {
      var i :| 0 <= i < |rows| && rows[i] == x;
      if i < |t1.rows| {
        assert x in t1.rows;
      } else {
        assert x in rows[|t1.rows|..];
        var k :| k in ks && x.user == k.user && x.group == k.group;
        KeysOfInvitation(h, inv, u, k);
      }
    }
  }

  /** `get_or_create` again with the same lookup, once the row it created
    * matches the lookup, changes nothing. */
  lemma GetOrCreateIsIdempotent(h: Hierarchy, t: Table, k: RoleLookup, now: int, now2: int)
    requires Wf(h) && IdsBelow(t)
    requires var r := GetOrCreate(h, t, k, now); r.ok && |Matching(r.table.rows, k)| == 1
    ensures GetOrCreate(h, GetOrCreate(h, t, k, now).table, k, now2) == GetOrCreate(h, t, k, now)
  {
  }

  /** An invitation pairing a project with a site of another project: `save`
    * moves the created role to the site's own project, so the row no longer
    * matches its lookup and a second lookup creates a second row. */
  lemma SitePairedWithForeignProjectDuplicates()
    ensures
      var h := Hierarchy(map[1 := Organization(true)], map[10 := Project(1, true, false), 20 := Project(1, true, false)],
                         map[], map[5 := Site(20, None, None, {}, "s", true)], map[]);
      var k := RoleLookup(7, SiteSupervisor, 1, Some(10), Some(5), AnyRegion);
      var once := GetOrCreate(h, Table([], 1), k, 0);
      Wf(h) && LookupResolves(h, k) && once.ok && |once.table.rows| == 1 &&
      |GetOrCreate(h, once.table, k, 0).table.rows| == 2
  {
    var h := Hierarchy(map[1 := Organization(true)], map[10 := Project(1, true, false), 20 := Project(1, true, false)],
                       map[], map[5 := Site(20, None, None, {}, "s", true)], map[]);
    var k := RoleLookup(7, SiteSupervisor, 1, Some(10), Some(5), AnyRegion);
    assert Matching([], k) == [];
    var once := GetOrCreate(h, Table([], 1), k, 0);
    var x := Role(1, 7, SiteSupervisor, Some(1), Some(20), None, Some(5), None, 0, None);
    assert once.table.rows == [x];
    assert Matching([x], k) == [] by { assert [x][1..] == []; }
  }

  /** Rerunning a successful expansion over a table in which every lookup
    * matches exactly one row creates nothing. */
  lemma {:induction false} RerunCreatesNothing(h: Hierarchy, t: Table, ks: seq<RoleLookup>, now: int)
    requires Wf(h) && forall k :: k in ks ==> |Matching(t.rows, k)| == 1
    ensures ExpandAll(h, t, ks, now) == Run(t, true)
    decreases |ks|
  {
    if ks != [] {
      assert forall k :: k in ks[..|ks| - 1] ==> k in ks;
      RerunCreatesNothing(h, t, ks[..|ks| - 1], now);
    }
  }

  /** `AcceptInvite.post`. */
  method AcceptInvite(h: Hierarchy, store: RoleStore, profile: UserProfile, invitation: Invitation,
                      user: Option<int>, now: int) returns (response: AcceptResponse, grantsChangeFinstance: bool)
    requires Wf(h) && InviteResolves(h, invitation.data) && IdsBelow(Table(store.rows, store.nextId))
    modifies store, profile, invitation
    ensures var o := AcceptSpec(h, Table(old(store.rows), old(store.nextId)), old(profile.organization),
                                old(invitation.isUsed), user, invitation.data, now);
      response == o.response && Table(store.rows, store.nextId) == o.table &&
      profile.organization == o.profileOrganization && invitation.isUsed == o.isUsed &&
      grantsChangeFinstance == o.grantsChangeFinstance
    ensures IdsBelow(Table(store.rows, store.nextId))
  {
    var inv := invitation.data;
    if user.None? || invitation.isUsed {
      return BadRequest, false;
    }
    var u := user.value;
    ghost var t0 := Table(store.rows, store.nextId);
    if profile.organization.None? {
      profile.organization := Some(inv.organization);
    }
    var mine := OfUser(store.rows, u);
    if mine == [] {
      return ServerError, false;
    }
    if mine[0].group == Unassigned {
      store.rows := Where(store.rows, (x: Role) => !(x.user == u && x.group == Unassigned));
    }
    assert Table(store.rows, store.nextId) == StartTable(t0, u);
    var ok := Expand(h, store, inv, u, now);
    if !ok {
      return ServerError, false;
    }
    grantsChangeFinstance := inv.projects == [] && inv.group == OrganizationAdmin;
    invitation.isUsed := true;
    if NotificationType(inv).Some? {
      response := Accepted;
    } else {
      response := ServerError;
    }
  }

  /** The `get_or_create` calls of `AcceptInvite.post`: the region loop or
    * the project loop, then the organization-level lookup when the
    * invitation names no project. */
  method Expand(h: Hierarchy, store: RoleStore, inv: InviteData, u: int, now: int) returns (ok: bool)
    requires Wf(h) && InviteResolves(h, inv) && IdsBelow(Table(store.rows, store.nextId))
    modifies store
    ensures Run(Table(store.rows, store.nextId), ok) == ExpandAll(h, Table(old(store.rows), old(store.nextId)), Keys(h, inv, u), now)
    ensures IdsBelow(Table(store.rows, store.nextId))
  {
    ghost var t1 := Table(store.rows, store.nextId);
    if inv.regions != [] {
      ok := ExpandRegions(h, store, inv, u, now);
    } else {
      ok := ExpandProjects(h, store, inv, u, now);
    }
    if !ok {
      return;
    }
    if inv.projects == [] {
      ok := ExpandOrganization(h, store, inv, u, now, t1);
    } else {
      assert Keys(h, inv, u) == MainKeys(h, inv, u);
    }
  }

  /** The organization-level `get_or_create` that closes the expansion of
    * an invitation naming no project. */
  method ExpandOrganization(h: Hierarchy, store: RoleStore, inv: InviteData, u: int, now: int, ghost t1: Table)
    returns (ok: bool)
    requires Wf(h) && InviteResolves(h, inv) && inv.projects == [] && IdsBelow(Table(store.rows, store.nextId))
    requires ExpandAll(h, t1, MainKeys(h, inv, u), now) == Run(Table(store.rows, store.nextId), true)
    modifies store
    ensures Run(Table(store.rows, store.nextId), ok) == ExpandAll(h, t1, Keys(h, inv, u), now)
    ensures IdsBelow(Table(store.rows, store.nextId))
  {
    ghost var all := Keys(h, inv, u);
    ghost var n := |MainKeys(h, inv, u)|;
    assert all[..n] == MainKeys(h, inv, u);
    ok := LookupNext(h, store, OrgKey(inv, u), now, t1, all, n, all);
    assert all[..n + 1] == all;
  }

  /** The region loop of `AcceptInvite.post`: one `get_or_create` per
    * region. A failure ends the whole expansion. */
  method ExpandRegions(h: Hierarchy, store: RoleStore, inv: InviteData, u: int, now: int) returns (ok: bool)
    requires Wf(h) && InviteResolves(h, inv) && inv.regions != [] && IdsBelow(Table(store.rows, store.nextId))
    modifies store
    ensures ok ==> Run(Table(store.rows, store.nextId), true) == ExpandAll(h, Table(old(store.rows), old(store.nextId)), MainKeys(h, inv, u), now)
    ensures !ok ==> Run(Table(store.rows, store.nextId), false) == ExpandAll(h, Table(old(store.rows), old(store.nextId)), Keys(h, inv, u), now)
    ensures IdsBelow(Table(store.rows, store.nextId))
  {
    ghost var t1 := Table(store.rows, store.nextId);
    ghost var ks := MainKeys(h, inv, u);
    ghost var all := Keys(h, inv, u);
    assert ks == all[..|ks|];
    assert ks[..0] == [];
    var i := 0;
    while i < |inv.regions|
      invariant 0 <= i <= |inv.regions|
      invariant ExpandAll(h, t1, ks[..i], now) == Run(Table(store.rows, store.nextId), true)
      invariant IdsBelow(Table(store.rows, store.nextId))
    {
      var g := inv.regions[i];
      var k := RoleLookup(u, inv.group, inv.organization, Some(h.regions[g].project), None, RegionIs(Some(g)));
      ok := LookupNext(h, store, k, now, t1, ks, i, all);
      if !ok {
        return;
      }
      i := i + 1;
    }
    assert ks[..i] == ks;
    ok := true;
  }

  /** The project loop of `AcceptInvite.post`: its inner site loop, and the
    * site-less lookup when the invitation names no site. A failure ends the
    * whole expansion. */
  method ExpandProjects(h: Hierarchy, store: RoleStore, inv: InviteData, u: int, now: int) returns (ok: bool)
    requires Wf(h) && InviteResolves(h, inv) && inv.regions == [] && IdsBelow(Table(store.rows, store.nextId))
    modifies store
    ensures ok ==> Run(Table(store.rows, store.nextId), true) == ExpandAll(h, Table(old(store.rows), old(store.nextId)), MainKeys(h, inv, u), now)
    ensures !ok ==> Run(Table(store.rows, store.nextId), false) == ExpandAll(h, Table(old(store.rows), old(store.nextId)), Keys(h, inv, u), now)
    ensures IdsBelow(Table(store.rows, store.nextId))
  {
    ghost var t1 := Table(store.rows, store.nextId);
    ghost var all := Keys(h, inv, u);
    var i := 0;
    while i < |inv.projects|
      invariant 0 <= i <= |inv.projects|
      invariant ProjectKeys(inv, u, inv.projects[..i]) <= all
      invariant ExpandAll(h, t1, ProjectKeys(inv, u, inv.projects[..i]), now) == Run(Table(store.rows, store.nextId), true)
      invariant IdsBelow(Table(store.rows, store.nextId))
    {
      var p := inv.projects[i];
      ghost var before := ProjectKeys(inv, u, inv.projects[..i]);
      assert inv.projects[..i + 1][..i] == inv.projects[..i];
      assert ProjectKeys(inv, u, inv.projects[..i + 1]) == before + PerProject(inv, u, p);
      ProjectKeysPrefix(inv, u, inv.projects, i + 1);
      ok := ExpandProject(h, store, inv, u, p, now, t1, before, all);
      if !ok {
        return;
      }
      i := i + 1;
    }
    assert inv.projects[..i] == inv.projects;
    ok := true;
  }

  /** One turn of the project loop: the site loop, then the site-less
    * lookup when the invitation names no site. */
  method ExpandProject(h: Hierarchy, store: RoleStore, inv: InviteData, u: int, p: int, now: int,
                       ghost t1: Table, ghost before: seq<RoleLookup>, ghost all: seq<RoleLookup>) returns (ok: bool)
    requires Wf(h) && IdsBelow(Table(store.rows, store.nextId))
    requires before + PerProject(inv, u, p) <= all
    requires ExpandAll(h, t1, before, now) == Run(Table(store.rows, store.nextId), true)
    modifies store
    ensures ok ==> Run(Table(store.rows, store.nextId), true) == ExpandAll(h, t1, before + PerProject(inv, u, p), now)
    ensures !ok ==> Run(Table(store.rows, store.nextId), false) == ExpandAll(h, t1, all, now)
    ensures IdsBelow(Table(store.rows, store.nextId))
  {
    ok := ExpandSites(h, store, inv, u, p, now, t1, before, all);
    if !ok {
      return;
    }
    if inv.sites == [] {
      var k := RoleLookup(u, inv.group, inv.organization, Some(p), None, AnyRegion);
      ghost var ks := before + PerProject(inv, u, p);
      assert SiteKeys(inv, u, p, inv.sites) == [];
      assert PerProject(inv, u, p) == [k];
      assert before + SiteKeys(inv, u, p, inv.sites) == before == ks[..|before|];
      ok := LookupNext(h, store, k, now, t1, ks, |before|, all);
      assert ks[..|before| + 1] == ks;
    } else {
      assert PerProject(inv, u, p) == SiteKeys(inv, u, p, inv.sites);
    }
  }

  /** The site loop for one project. `before` are the lookups already
    * made. */
  method ExpandSites(h: Hierarchy, store: RoleStore, inv: InviteData, u: int, p: int, now: int,
                     ghost t1: Table, ghost before: seq<RoleLookup>, ghost all: seq<RoleLookup>) returns (ok: bool)
    requires Wf(h) && IdsBelow(Table(store.rows, store.nextId))
    requires before + PerProject(inv, u, p) <= all
    requires ExpandAll(h, t1, before, now) == Run(Table(store.rows, store.nextId), true)
    modifies store
    ensures ok ==> Run(Table(store.rows, store.nextId), true) == ExpandAll(h, t1, before + SiteKeys(inv, u, p, inv.sites), now)
    ensures !ok ==> Run(Table(store.rows, store.nextId), false) == ExpandAll(h, t1, all, now)
    ensures IdsBelow(Table(store.rows, store.nextId))
  {
    ghost var ks := before + SiteKeys(inv, u, p, inv.sites);
    SiteKeysPrefix(inv, u, p);
    PrefixAfter(before, SiteKeys(inv, u, p, inv.sites), PerProject(inv, u, p), all);
    assert ks[..|before|] == before;
    var j := 0;
    while j < |inv.sites|
      invariant 0 <= j <= |inv.sites|
      invariant ExpandAll(h, t1, ks[..|before| + j], now) == Run(Table(store.rows, store.nextId), true)
      invariant IdsBelow(Table(store.rows, store.nextId))
    {
      var k := RoleLookup(u, inv.group, inv.organization, Some(p), Some(inv.sites[j]), AnyRegion);
      assert ks[|before| + j] == SiteKeys(inv, u, p, inv.sites)[j] == k;
      ok := LookupNext(h, store, k, now, t1, ks, |before| + j, all);
      if !ok {
        return;
      }
      j := j + 1;
    }
    assert ks[..|before| + j] == ks;
    ok := true;
  }

  lemma PrefixAfter<T>(a: seq<T>, b: seq<T>, c: seq<T>, d: seq<T>)
    requires b <= c && a + c <= d
    ensures a + b <= d
  {
    assert (a + b) == (a + c)[..|a + b|];
  }

  lemma SiteKeysPrefix(inv: InviteData, u: int, p: int)
    ensures SiteKeys(inv, u, p, inv.sites) <= PerProject(inv, u, p)
  {
    var b := SiteKeys(inv, u, p, inv.sites);
    assert b == PerProject(inv, u, p)[..|b|];
  }

  lemma {:induction false} ProjectKeysPrefix(inv: InviteData, u: int, projects: seq<int>, j: int)
    requires 0 <= j <= |projects|
    ensures ProjectKeys(inv, u, projects[..j]) <= ProjectKeys(inv, u, projects)
    decreases |projects|
  {
    if j < |projects| {
      var ps := projects[..|projects| - 1];
      assert projects[..j] == ps[..j];
      ProjectKeysPrefix(inv, u, ps, j);
    } else {
      assert projects[..j] == projects;
    }
  }

  /** One `get_or_create` call of the expansion: the lookup `ks[i]`, after
    * the lookups before it. A failure is the outcome of the whole expansion
    * `all`. */
  method LookupNext(h: Hierarchy, store: RoleStore, k: RoleLookup, now: int,
                    ghost t1: Table, ghost ks: seq<RoleLookup>, ghost i: int, ghost all: seq<RoleLookup>) returns (ok: bool)
    requires Wf(h) && IdsBelow(Table(store.rows, store.nextId))
    requires ks <= all && 0 <= i < |ks| && ks[i] == k
    requires ExpandAll(h, t1, ks[..i], now) == Run(Table(store.rows, store.nextId), true)
    modifies store
    ensures ok ==> ExpandAll(h, t1, ks[..i + 1], now) == Run(Table(store.rows, store.nextId), true)
    ensures !ok ==> Run(Table(store.rows, store.nextId), false) == ExpandAll(h, t1, all, now)
    ensures IdsBelow(Table(store.rows, store.nextId))
  {
    assert ks[..i + 1] == ks[..i] + [k];
    ExpandAllSnoc(h, t1, ks[..i], k, now);
    ok := GetOrCreateRole(h, store, k, now);
    if !ok {
      assert ks[..i + 1] == all[..i + 1];
      Finish(h, t1, ks[..i + 1], all, now);
    }
  }

  /** A failed prefix run is the outcome of the whole run. */
  lemma Finish(h: Hierarchy, t: Table, done: seq<RoleLookup>, all: seq<RoleLookup>, now: int)
    requires Wf(h) && done <= all
    requires !ExpandAll(h, t, done, now).ok
    ensures ExpandAll(h, t, all, now) == ExpandAll(h, t, done, now)
  {
    assert all == done + all[|done|..];
    ExpandAllStopsAtFailure(h, t, done, all[|done|..], now);
  }

  /** One `get_or_create` call: a lookup, then `create`, whose `save` fills
    * in the scope fields. */
  method GetOrCreateRole(h: Hierarchy, store: RoleStore, k: RoleLookup, now: int) returns (ok: bool)
    requires Wf(h) && IdsBelow(Table(store.rows, store.nextId))
    modifies store
    ensures GetOrCreate(h, Table(old(store.rows), old(store.nextId)), k, now) == Run(Table(store.rows, store.nextId), ok)
    ensures IdsBelow(Table(store.rows, store.nextId))
  {
    var found := Matching(store.rows, k);
    if |found| == 1 {
      return true;
    } else if |found| > 1 {
      return false;
    }
    if !LookupResolves(h, k) {
      return false;
    }
    var created := Fresh(k, store.nextId, now);
    assert RefsResolve(h, created) by { assert LookupResolves(h, k); }
    var row := new UserRole(created);
    ok := row.Save(h, store);
    if ok {
      assert forall x :: x in old(store.rows) ==> x.id != created.id;
      assert !exists i :: 0 <= i < |old(store.rows)| && old(store.rows)[i].id == created.id by {
        forall i | 0 <= i < |old(store.rows)| ensures old(store.rows)[i].id != created.id {
          assert old(store.rows)[i] in old(store.rows);
        }
      }
      store.nextId := store.nextId + 1;
    }
  }
}
