/** Shared vocabulary of the FieldSight access model: role kinds, role records,
  * the Organization -> Project -> Region -> Site hierarchy, the request a
  * permission test sees, and the outcomes of the two styles of permission test
  * (Django view mixins and REST framework permission classes). */
module Common {

  datatype Option<T> = None | Some(value: T)

  /** The role kinds (Django auth groups) the code dispatches on. The numeric
    * group ids the code uses are 1 = OrganizationAdmin, 2 = ProjectManager,
    * 3 = SiteSupervisor, 4 = Reviewer and 7 = ProjectDonor. */
  datatype Group =
    | SuperAdmin
    | OrganizationAdmin
    | ProjectManager
    | SiteSupervisor
    | Reviewer
    | RegionSupervisor
    | RegionReviewer
    | ProjectDonor
    | Unassigned
    | StaffProjectManager

  /** The group's name as stored in the database. */
  function GroupName(g: Group): string
  {
    match g
    case SuperAdmin => "Super Admin"
    case OrganizationAdmin => "Organization Admin"
    case ProjectManager => "Project Manager"
    case SiteSupervisor => "Site Supervisor"
    case Reviewer => "Reviewer"
    case RegionSupervisor => "Region Supervisor"
    case RegionReviewer => "Region Reviewer"
    case ProjectDonor => "Project Donor"
    case Unassigned => "Unassigned"
    case StaffProjectManager => "Staff Project Manager"
  }

  /** The group whose name is `name`, when there is one: the model of a
    * `group__name=...` lookup. */
  function GroupNamed(name: string): (r: Option<Group>)
    ensures r.Some? ==> GroupName(r.value) == name
    ensures r.None? ==> forall g: Group :: GroupName(g) != name
  {
    if name == "Super Admin" then Some(SuperAdmin)
    else if name == "Organization Admin" then Some(OrganizationAdmin)
    else if name == "Project Manager" then Some(ProjectManager)
    else if name == "Site Supervisor" then Some(SiteSupervisor)
    else if name == "Reviewer" then Some(Reviewer)
    else if name == "Region Supervisor" then Some(RegionSupervisor)
    else if name == "Region Reviewer" then Some(RegionReviewer)
    else if name == "Project Donor" then Some(ProjectDonor)
    else if name == "Unassigned" then Some(Unassigned)
    else if name == "Staff Project Manager" then Some(StaffProjectManager)
    else None
  }

  /** A UserRole row. `endedAt == None` means the role is still active. */
  datatype Role = Role(
    id: int,
    user: int,
    group: Group,
    organization: Option<int>,
    project: Option<int>,
    region: Option<int>,
    site: Option<int>,
    staffProject: Option<int>,
    startedAt: int,
    endedAt: Option<int>)

  predicate Active(r: Role) { r.endedAt.None? }

  datatype Organization = Organization(isActive: bool)

  datatype Project = Project(organization: int, isActive: bool, clusterSites: bool)

  /** `ancestors` is what `Region.get_parent_regions()` returns; that method is
    * not shown, so the set is taken as given. */
  datatype Region = Region(project: int, parent: Option<int>, ancestors: set<int>, isActive: bool)

  /** `parent` is `site.site` (the parent site of a sub-site); `ancestors` is
    * what `Site.get_parent_sites()` returns, taken as given. */
  datatype Site = Site(project: int, region: Option<int>, parent: Option<int>,
                       ancestors: set<int>, identifier: string, isActive: bool)

  /** A FieldSightXF: a form attached to a site or to a project. */
  datatype FieldSightForm = FieldSightForm(site: Option<int>, project: Option<int>)

  datatype Hierarchy = Hierarchy(
    organizations: map<int, Organization>,
    projects: map<int, Project>,
    regions: map<int, Region>,
    sites: map<int, Site>,
    forms: map<int, FieldSightForm>)

  /** Referential integrity of the database: every foreign key of the
    * hierarchy resolves. Lookups by a URL id can still fail; following a
    * foreign key cannot. */
  predicate Wf(h: Hierarchy)
  {
    && (forall p :: p in h.projects ==> h.projects[p].organization in h.organizations)
    && (forall g :: g in h.regions ==> h.regions[g].project in h.projects)
    && (forall g :: g in h.regions && h.regions[g].parent.Some? ==> h.regions[g].parent.value in h.regions)
    && (forall s :: s in h.sites ==> h.sites[s].project in h.projects)
    && (forall s :: s in h.sites && h.sites[s].region.Some? ==> h.sites[s].region.value in h.regions)
    && (forall s :: s in h.sites && h.sites[s].parent.Some? ==> h.sites[s].parent.value in h.sites)
    && (forall f :: f in h.forms && h.forms[f].site.Some? ==> h.forms[f].site.value in h.sites)
    && (forall f :: f in h.forms && h.forms[f].project.Some? ==> h.forms[f].project.value in h.projects)
  }

  /** What a permission test reads from the request: the requester, the
    * middleware's `is_super_admin` flag and `request.roles`. */
  datatype Request = Request(user: int, isSuperAdmin: bool, roles: seq<Role>)

  /** Outcome of a Django view mixin's `dispatch`: the view runs with the
    * given keyword flags, `PermissionDenied` is raised, a 404 response is
    * returned, or an uncaught exception (a failed `.get()`, an attribute of
    * None) ends the request. */
  datatype Dispatch<F> = Proceed(flags: F) | PermissionDenied | NotFoundResponse | Failure

  /** Result of a REST framework `has_permission`: True, False, a `Response`
    * object with a status code, None (the function fell off its end), or an
    * uncaught exception. */
  datatype Verdict = Allow | Refuse | Respond(status: int) | NoVerdict | Fault

  /** REST framework tests `if not permission.has_permission(...)`: True and
    * any `Response` object are truthy, False and None are not. */
  predicate Truthy(v: Verdict) { v.Allow? || v.Respond? }

  // Role-store queries: each is `request.roles.filter(...)` being non-empty.

  predicate HasOrgRole(roles: seq<Role>, gs: set<Group>, org: int)
  {
    exists r :: r in roles && r.group in gs && r.organization == Some(org)
  }

  predicate HasProjectRole(roles: seq<Role>, gs: set<Group>, project: int)
  {
    exists r :: r in roles && r.group in gs && r.project == Some(project)
  }

  predicate HasSiteRole(roles: seq<Role>, gs: set<Group>, site: int)
  {
    exists r :: r in roles && r.group in gs && r.site == Some(site)
  }

  predicate HasSiteRoleIn(roles: seq<Role>, gs: set<Group>, sites: set<int>)
  {
    exists r :: r in roles && r.group in gs && r.site.Some? && r.site.value in sites
  }

  predicate HasRegionRoleIn(roles: seq<Role>, gs: set<Group>, regions: set<int>)
  {
    exists r :: r in roles && r.group in gs && r.region.Some? && r.region.value in regions
  }

  /** `filter(region=None, group__name__in=gs)`. */
  predicate HasNullRegionRole(roles: seq<Role>, gs: set<Group>)
  {
    exists r :: r in roles && r.group in gs && r.region.None?
  }

  predicate HasGroup(roles: seq<Role>, gs: set<Group>)
  {
    exists r :: r in roles && r.group in gs
  }

  /** The region test the site-level checks share: for a site in a region, a
    * role of `gs` on one of that region's `get_parent_regions()`; for a site
    * with no region, a role of `gs` whose own region is null. */
  predicate RegionMatch(roles: seq<Role>, gs: set<Group>, h: Hierarchy, site: Site)
    requires site.region.Some? ==> site.region.value in h.regions
  {
    if site.region.Some? then HasRegionRoleIn(roles, gs, h.regions[site.region.value].ancestors)
    else HasNullRegionRole(roles, gs)
  }

  /** The site test the site-level checks share: for a sub-site, a role of
    * `gs` on one of its `get_parent_sites()`; for a top-level site, a role of
    * `gs` on the site itself. */
  predicate SiteMatch(roles: seq<Role>, gs: set<Group>, site: Site, siteId: int)
  {
    if site.parent.Some? then HasSiteRoleIn(roles, gs, site.ancestors)
    else HasSiteRole(roles, gs, siteId)
  }

  /** The roles of `roles` held by `user`: `filter(user_id=user)`. */
  function OfUser(roles: seq<Role>, user: int): (r: seq<Role>)
    ensures forall x :: x in r <==> x in roles && x.user == user
  {
    if roles == [] then []
    else (if roles[0].user == user then [roles[0]] else []) + OfUser(roles[1..], user)
  }

  /** The active roles of `roles`: `filter(ended_at=None)`. */
  function ActiveOnly(roles: seq<Role>): (r: seq<Role>)
    ensures forall x :: x in r <==> x in roles && Active(x)
  {
    if roles == [] then []
    else (if Active(roles[0]) then [roles[0]] else []) + ActiveOnly(roles[1..])
  }

  /** Role queries only look for the existence of a matching role, so a
    * larger role set never makes one fail. */
  lemma QueriesMonotone(roles: seq<Role>, extra: seq<Role>, gs: set<Group>, x: int, xs: set<int>)
    ensures HasOrgRole(roles, gs, x) ==> HasOrgRole(roles + extra, gs, x)
    ensures HasProjectRole(roles, gs, x) ==> HasProjectRole(roles + extra, gs, x)
    ensures HasSiteRole(roles, gs, x) ==> HasSiteRole(roles + extra, gs, x)
    ensures HasSiteRoleIn(roles, gs, xs) ==> HasSiteRoleIn(roles + extra, gs, xs)
    ensures HasRegionRoleIn(roles, gs, xs) ==> HasRegionRoleIn(roles + extra, gs, xs)
    ensures HasNullRegionRole(roles, gs) ==> HasNullRegionRole(roles + extra, gs)
    ensures HasGroup(roles, gs) ==> HasGroup(roles + extra, gs)
  {
    forall r | r in roles ensures r in roles + extra { }
  }

  /** `Model.objects.get(id=key)` on a map of rows: the row's id, no such
    * row (DoesNotExist, also for a null key), or a key that is not a number
    * (ValueError). */
  datatype Lookup = Found(id: int) | Missing | Invalid

  function LookupKey<T>(key: Option<string>, rows: map<int, T>): (r: Lookup)
    ensures r.Found? ==> r.id in rows && key.Some? && ParseInt(key.value) == Some(r.id)
    ensures r.Missing? <==> key.None? || (ParseInt(key.value).Some? && ParseInt(key.value).value !in rows)
    ensures r.Invalid? <==> key.Some? && ParseInt(key.value).None?
  {
    match key
    case None => Missing
    case Some(s) =>
      match ParseInt(s)
      case None => Invalid
      case Some(n) => if n in rows then Found(n) else Missing
  }

  /** Python's `int(s)` on a string of ASCII decimal digits with an optional
    * leading sign; anything else raises ValueError (here: None). Surrounding
    * whitespace, which `int` tolerates, is not modelled. */
  function ParseInt(s: string): (r: Option<int>)
    ensures r.Some? ==> |s| > 0
    ensures (|s| > 0 && AllDigits(s)) ==> r == Some(DigitsValue(s))
  {
    if |s| > 0 && (s[0] == '-' || s[0] == '+') then
      if |s| > 1 && AllDigits(s[1..]) then
        Some(if s[0] == '-' then -(DigitsValue(s[1..]) as int) else DigitsValue(s[1..]) as int)
      else None
    else if |s| > 0 && AllDigits(s) then Some(DigitsValue(s))
    else None
  }

  predicate IsDigit(c: char) { '0' <= c <= '9' }

  predicate AllDigits(s: string) { forall i :: 0 <= i < |s| ==> IsDigit(s[i]) }

  function DigitsValue(s: string): nat
    requires AllDigits(s)
  {
    if s == [] then 0 else DigitsValue(s[..|s| - 1]) * 10 + (s[|s| - 1] - '0') as nat
  }

  /** The decimal digits of a natural number, most significant first: the
    * model of `str(n)` for n >= 0. */
  function NatToString(n: nat): (s: string)
    ensures |s| > 0 && AllDigits(s)
    ensures DigitsValue(s) == n
    decreases n
  {
    if n < 10 then [('0' as int + n) as char]
    else
      var p := NatToString(n / 10);
      var s := p + [('0' as int + n % 10) as char];
      assert s[..|s| - 1] == p;
      s
  }

  /** `str(n)` for any int. */
  function IntToString(n: int): (s: string)
  {
    if n < 0 then "-" + NatToString(-n) else NatToString(n)
  }

  lemma {:induction false} IntToStringParses(n: int)
    ensures ParseInt(IntToString(n)) == Some(n)
  {
    if n < 0 {
      var d := NatToString(-n);
      assert IntToString(n) == "-" + d;
      assert ("-" + d)[1..] == d;
    } else {
      var d := NatToString(n);
      assert d[0] != '-' && d[0] != '+' by { assert IsDigit(d[0]); }
    }
  }

  // ------------------------------------------------- sequence helpers

  /** `request.GET.get(name)` is truthy. */
  predicate Given(p: Option<string>) { p.Some? && p.value != "" }

  /** `filter(...)` with the predicate `keep`, in table order. */
  function Where<T(!new)>(rows: seq<T>, keep: T -> bool): (r: seq<T>)
    ensures forall x :: x in r <==> x in rows && keep(x)
    ensures |r| <= |rows|
  {
    if rows == [] then []
    else (if keep(rows[0]) then [rows[0]] else []) + Where(rows[1..], keep)
  }

  lemma {:induction false} WhereAppend<T(!new)>(a: seq<T>, b: seq<T>, keep: T -> bool)
    ensures Where(a + b, keep) == Where(a, keep) + Where(b, keep)
  {
    if a == [] {
      assert a + b == b;
    } else {
      assert (a + b)[1..] == a[1..] + b;
      WhereAppend(a[1..], b, keep);
    }
  }

  lemma {:induction false} NoneKept<T(!new)>(rows: seq<T>, keep: T -> bool)
    requires forall x :: x in rows ==> !keep(x)
    ensures Where(rows, keep) == []
  {
    if rows != [] {
      assert rows[0] in rows;
      NoneKept(rows[1..], keep);
    }
  }

  /** A filter that one row passes returns exactly that row. */
  lemma {:induction false} WhereSingle<T(!new)>(rows: seq<T>, keep: T -> bool, i: int)
    requires 0 <= i < |rows| && keep(rows[i])
    requires forall j :: 0 <= j < |rows| && keep(rows[j]) ==> j == i
    ensures Where(rows, keep) == [rows[i]]
  {
    if i == 0 {
      forall x | x in rows[1..] ensures !keep(x) {
        var k :| 0 <= k < |rows[1..]| && rows[1..][k] == x;
        assert rows[k + 1] == x;
      }
      NoneKept(rows[1..], keep);
    } else {
      forall j | 0 <= j < |rows[1..]| && keep(rows[1..][j]) ensures j == i - 1 {
        assert rows[1..][j] == rows[j + 1];
      }
      WhereSingle(rows[1..], keep, i - 1);
    }
  }

  /** A filter that two rows pass returns at least two rows. */
  lemma {:induction false} WhereTwo<T(!new)>(rows: seq<T>, keep: T -> bool, i: int, j: int)
    requires 0 <= i < |rows| && 0 <= j < |rows| && i != j
    requires keep(rows[i]) && keep(rows[j])
    ensures |Where(rows, keep)| >= 2
  {
    if i == 0 || j == 0 {
      var k := if i == 0 then j else i;
      assert rows[1..][k - 1] == rows[k];
      assert rows[k] in Where(rows[1..], keep);
    } else {
      assert rows[1..][i - 1] == rows[i] && rows[1..][j - 1] == rows[j];
      WhereTwo(rows[1..], keep, i - 1, j - 1);
    }
  }

  /** `[f(x) for x in xs]`. */
  function Map<T, U>(xs: seq<T>, f: T -> U): (r: seq<U>)
    ensures |r| == |xs|
    ensures forall i :: 0 <= i < |xs| ==> r[i] == f(xs[i])
  {
    if xs == [] then [] else [f(xs[0])] + Map(xs[1..], f)
  }

  /** The first occurrence of each value, in order: SQL `DISTINCT` over a
    * column, taking the rows in table order. */
  function Distinct<T(==,!new)>(xs: seq<T>): (r: seq<T>)
    ensures forall x :: x in r <==> x in xs
    ensures forall i, j :: 0 <= i < j < |r| ==> r[i] != r[j]
    ensures |r| <= |xs|
  {
    if xs == [] then []
    else
      var rest := Distinct(xs[..|xs| - 1]);
      var last := xs[|xs| - 1];
      assert forall x :: x in xs <==> x in xs[..|xs| - 1] || x == last by {
        assert xs == xs[..|xs| - 1] + [last];
      }
      if last in rest then rest else rest + [last]
  }

  /** A list without repeats has as many elements as its set. */
  lemma {:induction false} NoRepeatsCount<T>(xs: seq<T>)
    requires forall i, j :: 0 <= i < j < |xs| ==> xs[i] != xs[j]
    ensures |set x | x in xs| == |xs|
  {
    if xs != [] {
      var init := xs[..|xs| - 1];
      var last := xs[|xs| - 1];
      NoRepeatsCount(init);
      assert xs == init + [last];
      assert last !in init;
      assert (set x | x in xs) == (set x | x in init) + {last};
    }
  }

  /** Non-decreasing order, as `order_by` on an integer column gives. */
  predicate Ascending(xs: seq<int>)
  {
    forall i, j :: 0 <= i < j < |xs| ==> xs[i] <= xs[j]
  }

  /** `x` put into a list before its first larger element. */
  function InsertAscending(x: int, xs: seq<int>): seq<int>
  {
    if xs == [] || x <= xs[0] then [x] + xs else [xs[0]] + InsertAscending(x, xs[1..])
  }

  /** Inserting adds `x` once and nothing else. */
  lemma {:induction false} InsertAddsOnce(x: int, xs: seq<int>)
    ensures multiset(InsertAscending(x, xs)) == multiset(xs) + multiset{x}
    ensures |InsertAscending(x, xs)| == |xs| + 1
  {
    if xs != [] && x > xs[0] {
      InsertAddsOnce(x, xs[1..]);
      assert xs == [xs[0]] + xs[1..];
      assert InsertAscending(x, xs) == [xs[0]] + InsertAscending(x, xs[1..]);
    }
  }

  /** Inserting into an ascending list keeps it ascending; the head is the
    * smaller of `x` and the old head. */
  lemma {:induction false} InsertKeepsAscending(x: int, xs: seq<int>)
    requires Ascending(xs)
    ensures Ascending(InsertAscending(x, xs))
    ensures InsertAscending(x, xs)[0] == if xs == [] || x <= xs[0] then x else xs[0]
  {
    if xs == [] || x <= xs[0] {
      ConsAscending(x, xs);
    } else {
      InsertKeepsAscending(x, xs[1..]);
      var rest := InsertAscending(x, xs[1..]);
      assert xs[0] <= rest[0] by { assert |xs| > 1 ==> xs[0] <= xs[1]; }
      ConsAscending(xs[0], rest);
    }
  }

  /** An element no larger than the head of an ascending list extends it. */
  lemma ConsAscending(a: int, xs: seq<int>)
    requires Ascending(xs) && (xs == [] || a <= xs[0])
    ensures Ascending([a] + xs)
  {
    var r := [a] + xs;
    forall i, j | 0 <= i < j < |r| ensures r[i] <= r[j] {
      if i > 0 {
        assert r[i] == xs[i - 1] && r[j] == xs[j - 1];
      } else {
        assert r[j] == xs[j - 1] && xs[0] <= xs[j - 1];
      }
    }
  }

  /** The elements of `xs` in ascending order, each as often as in `xs`. */
  function SortAscending(xs: seq<int>): (r: seq<int>)
    ensures Ascending(r) && multiset(r) == multiset(xs)
    ensures |r| == |xs|
  {
    if xs == [] then []
    else
      var init := xs[..|xs| - 1];
      var last := xs[|xs| - 1];
      assert xs == init + [last];
      InsertKeepsAscending(last, SortAscending(init));
      InsertAddsOnce(last, SortAscending(init));
      InsertAscending(last, SortAscending(init))
  }
}
