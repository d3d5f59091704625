/** The site and project views of fv3/views.py: which projects a
  * supervisor sees and where they supervise a site, the sites a
  * supervisor's app syncs, the identifier rule of site creation and update,
  * the soft delete of a site, the answer diff an edit is logged with, the
  * clean-up of Link metas when a project's metas change, and the region
  * flag of a project. */
module Fv3Views {
  import opened Common
  import opened JsonValues
  import opened SiteMetaAttribs

  // -------------------------------------------------- supervisor_projects

  /** The user's active roles of the given groups. */
  predicate HasActive(store: seq<Role>, user: int, gs: set<Group>, project: int)
  {
    exists x :: x in store && x.user == user && Active(x) && x.group in gs && x.project == Some(project)
  }

  /** The projects `supervisor_projects` lists, in table order: those of
    * the user's active Region Supervisor and Site Supervisor roles. */
  function SupervisedProjects(store: seq<Role>, user: int, projects: seq<int>): (r: seq<int>)
    ensures forall p :: p in r <==> p in projects && HasActive(store, user, {RegionSupervisor, SiteSupervisor}, p)
  {
    Where(projects, p => HasActive(store, user, {RegionSupervisor, SiteSupervisor}, p))
  }

  /** `supervisor_projects`: each listed project with its `has_site_role`
    * flag, set in a loop. */
  method SupervisorProjects(store: seq<Role>, user: int, projects: seq<int>) returns (r: seq<(int, bool)>)
    ensures |r| == |SupervisedProjects(store, user, projects)|
    ensures forall i :: 0 <= i < |r| ==> r[i].0 == SupervisedProjects(store, user, projects)[i]
    ensures forall i :: 0 <= i < |r| ==> (r[i].1 <==> HasActive(store, user, {SiteSupervisor}, r[i].0))
  {
    var listed := SupervisedProjects(store, user, projects);
    var siteRole := set x | x in store && x.user == user && Active(x) && GroupName(x.group) == "Site Supervisor" && x.project.Some?
                      :: x.project.value;
    r := [];
    var i := 0;
    while i < |listed|
      invariant 0 <= i <= |listed| && |r| == i
      invariant forall j :: 0 <= j < i ==> r[j].0 == listed[j]
      invariant forall j :: 0 <= j < i ==> (r[j].1 <==> HasActive(store, user, {SiteSupervisor}, r[j].0))
    {
      var p := listed[i];
      assert p in siteRole <==> HasActive(store, user, {SiteSupervisor}, p) by {
        if HasActive(store, user, {SiteSupervisor}, p) {
          var x :| x in store && x.user == user && Active(x) && x.group in {SiteSupervisor} && x.project == Some(p);
          assert GroupName(x.group) == "Site Supervisor";
        }
        if p in siteRole {
          var x :| x in store && x.user == user && Active(x) && GroupName(x.group) == "Site Supervisor" &&
                   x.project.Some? && x.project.value == p;
          assert x.group == SiteSupervisor;
        }
      }
      r := r + [(p, p in siteRole)];
      i := i + 1;
    }
  }

  /** A project is flagged only if it is listed, and only a Region
    * Supervisor role lists a project without flagging it. */
  lemma UnflaggedMeansRegionSupervisor(store: seq<Role>, user: int, projects: seq<int>, p: int)
    requires p in SupervisedProjects(store, user, projects) && !HasActive(store, user, {SiteSupervisor}, p)
    ensures HasActive(store, user, {RegionSupervisor}, p)
  {
    var x :| x in store && x.user == user && Active(x) && x.group in {RegionSupervisor, SiteSupervisor} && x.project == Some(p);
    assert x.group == RegionSupervisor;
  }

  // ------------------------------------------------ MySuperviseSitesViewset

  /** Region `g` is `r`, its parent, or its grandparent is `r`. */
  predicate WithinTwoLevels(h: Hierarchy, g: int, r: int)
  {
    g == r ||
    (g in h.regions && h.regions[g].parent == Some(r)) ||
    (g in h.regions && h.regions[g].parent.Some? && h.regions[g].parent.value in h.regions &&
     h.regions[h.regions[g].parent.value].parent == Some(r))
  }

  /** A Site Supervisor role without a region, on the site. */
  predicate SupervisesDirectly(store: seq<Role>, user: int, s: int)
  {
    exists x :: x in store && x.user == user && x.group == SiteSupervisor && x.region.None? && x.site == Some(s)
  }

  /** What `MySuperviseSitesViewset.get_queryset` lists. With `region_id`,
    * the sites of that region and of its children and grandchildren; else
    * with `project_id`, the project's sites that the user supervises
    * through a role without a region, on the site or on its parent site
    * (ended roles are not excluded); else nothing. A `last_updated`
    * timestamp keeps the sites modified since, and one that is not a number
    * (or is applied to the empty list) gives nothing. None is the
    * ValueError of an id that is not a number. */
  function SupervisedSites(h: Hierarchy, store: seq<Role>, user: int, modified: map<int, int>,
                           regionId: Option<string>, projectId: Option<string>, lastUpdated: Option<string>)
    : (r: Option<set<int>>)
    requires forall s :: s in h.sites ==> s in modified
    ensures !Given(regionId) && !Given(projectId) ==> r == Some({})
    ensures Given(lastUpdated) && ParseInt(lastUpdated.value).None? && r.Some? ==> r.value == {}
    ensures Given(regionId) && ParseInt(regionId.value).Some? && !Given(lastUpdated) ==>
      r.Some? && forall s :: s in r.value <==>
        s in h.sites && h.sites[s].region.Some? && WithinTwoLevels(h, h.sites[s].region.value, ParseInt(regionId.value).value)
    ensures !Given(regionId) && Given(projectId) && ParseInt(projectId.value).Some? && !Given(lastUpdated) ==>
      r.Some? && forall s :: s in r.value <==>
        s in h.sites && h.sites[s].project == ParseInt(projectId.value).value &&
        (SupervisesDirectly(store, user, s) || (h.sites[s].parent.Some? && SupervisesDirectly(store, user, h.sites[s].parent.value)))
    ensures r.Some? ==> forall s :: s in r.value ==> s in h.sites
    ensures r.Some? && Given(lastUpdated) && ParseInt(lastUpdated.value).Some? ==>
      forall s :: s in r.value ==> modified[s] >= ParseInt(lastUpdated.value).value
  {
    var base: Option<set<int>> :=
      if Given(regionId) then
        match ParseInt(regionId.value)
        case None => None
        case Some(g) => Some(set s | s in h.sites && h.sites[s].region.Some? && WithinTwoLevels(h, h.sites[s].region.value, g))
      else if Given(projectId) then
        match ParseInt(projectId.value)
        case None => None
        case Some(p) => Some(set s | s in h.sites && h.sites[s].project == p &&
                                     (SupervisesDirectly(store, user, s) ||
                                      (h.sites[s].parent.Some? && SupervisesDirectly(store, user, h.sites[s].parent.value))))
      else Some({});
    if base.None? then None
    else if !Given(lastUpdated) then base
    else if !Given(regionId) && !Given(projectId) then Some({})
    else
      match ParseInt(lastUpdated.value)
      case None => Some({})
      case Some(t) => Some(set s | s in base.value && modified[s] >= t)
  }

  /** A region's sites include those of its grandchildren, but not of its
    * great-grandchildren. */
  lemma GrandchildRegionSitesIncluded(h: Hierarchy, store: seq<Role>, user: int, modified: map<int, int>, g: int, s: int)
    requires forall s :: s in h.sites ==> s in modified
    requires s in h.sites && h.sites[s].region.Some?
    requires WithinTwoLevels(h, h.sites[s].region.value, g)
    ensures SupervisedSites(h, store, user, modified, Some(IntToString(g)), None, None).Some?
    ensures s in SupervisedSites(h, store, user, modified, Some(IntToString(g)), None, None).value
  {
    IntToStringParses(g);
  }

  // --------------------------------------------------------- check_region

  /** `check_region`: 404 for an unknown project, else whether the project
    * clusters its sites into regions. */
  function CheckRegion(h: Hierarchy, project: int): (r: Option<bool>)
    ensures r.None? <==> project !in h.projects
    ensures r == Some(true) <==> project in h.projects && h.projects[project].clusterSites
  {
    if project !in h.projects then None
    else Some(h.projects[project].clusterSites)
  }

  // ------------------------------------------------- ProjectSitesViewset

  /** No two sites of a project share an identifier. Soft-deleted sites
    * count: their identifiers carry the `_pk` suffix. */
  predicate UniqueIdentifiers(sites: map<int, Site>)
  {
    forall a, b :: a in sites && b in sites && a != b && sites[a].project == sites[b].project ==>
      sites[a].identifier != sites[b].identifier
  }

  /** `Site.objects.filter(identifier=..., project_id=...)` is non-empty. */
  predicate IdentifierTaken(sites: map<int, Site>, project: int, identifier: string)
  {
    exists k :: k in sites && sites[k].project == project && sites[k].identifier == identifier
  }

  /** Adding a site whose identifier is free in its project keeps
    * identifiers unique. */
  lemma InsertKeepsIdentifiersUnique(sites: map<int, Site>, id: int, s: Site)
    requires UniqueIdentifiers(sites) && id !in sites && !IdentifierTaken(sites, s.project, s.identifier)
    ensures UniqueIdentifiers(sites[id := s])
  {
  }

  datatype CreateResult = Conflict | Created(id: int) | CreateFault

  /** The site table with the next primary key. */
  class SiteStore {
    var sites: map<int, Site>
    var nextId: int

    predicate Valid()
      reads this
    {
      forall k :: k in sites ==> k < nextId
    }

    constructor(sites0: map<int, Site>, nextId0: int)
      requires forall k :: k in sites0 ==> k < nextId0
      ensures sites == sites0 && nextId == nextId0 && Valid()
    {
      sites := sites0;
      nextId := nextId0;
    }

    /** `perform_create`: refuse when the identifier is taken in the
      * project named by the `project` query parameter, otherwise save. A
      * missing parameter filters on a null project, which no site has, so
      * nothing is refused; one that is not a number raises. */
    method PerformCreate(projectParam: Option<string>, s: Site) returns (r: CreateResult)
      requires Valid()
      modifies this
      ensures Valid()
      ensures r == Conflict <==>
        projectParam.Some? && ParseInt(projectParam.value).Some? && IdentifierTaken(old(sites), ParseInt(projectParam.value).value, s.identifier)
      ensures r == CreateFault <==> projectParam.Some? && ParseInt(projectParam.value).None?
      ensures r.Created? ==> r.id == old(nextId) && sites == old(sites)[r.id := s] && nextId == old(nextId) + 1
      ensures !r.Created? ==> sites == old(sites) && nextId == old(nextId)
      ensures r.Created? && UniqueIdentifiers(old(sites)) && projectParam == Some(IntToString(s.project)) ==>
        UniqueIdentifiers(sites)
    {
      if projectParam.Some? {
        var p := ParseInt(projectParam.value);
        if p.None? {
          return CreateFault;
        }
        if IdentifierTaken(sites, p.value, s.identifier) {
          return Conflict;
        }
      }
      var id := nextId;
      if projectParam == Some(IntToString(s.project)) && UniqueIdentifiers(sites) {
        IntToStringParses(s.project);
        InsertKeepsIdentifiersUnique(sites, id, s);
      }
      sites := sites[id := s];
      nextId := nextId + 1;
      return Created(id);
    }

    /** `update`, for the identifier, as written: the serializer saves the
      * change first, and only then is the previous identifier read, so it
      * always equals the new one and the conflict test never refuses. */
    method UpdateIdentifier(pk: int, identifier: string) returns (conflict: bool)
      requires pk in sites
      modifies this
      ensures !conflict
      ensures sites == Renamed(old(sites), pk, identifier) && nextId == old(nextId)
    {
      sites := Renamed(sites, pk, identifier);
      var previous := sites[pk].identifier;
      var existing := IdentifierTaken(sites, sites[pk].project, identifier);
      var same := previous == identifier;
      if !same && existing {
        return true;
      }
      sites := Renamed(sites, pk, identifier);
      return false;
    }

    /** `perform_destroy`: the site is deactivated and its identifier gets
      * `_` and the URL's pk appended; every other site is untouched. */
    method PerformDestroy(pk: int)
      requires pk in sites
      modifies this
      ensures sites == old(sites)[pk := SoftDeleted(old(sites)[pk], pk)]
      ensures nextId == old(nextId)
    {
      sites := sites[pk := SoftDeleted(sites[pk], pk)];
    }
  }

  /** The table after site `pk` takes a new identifier. */
  function Renamed(sites: map<int, Site>, pk: int, identifier: string): (r: map<int, Site>)
    requires pk in sites
    ensures r.Keys == sites.Keys && r[pk].identifier == identifier && r[pk].project == sites[pk].project
    ensures forall k :: k in sites && k != pk ==> r[k] == sites[k]
  {
    sites[pk := sites[pk].(identifier := identifier)]
  }

  /** So an update can give two sites of a project the same identifier. */
  lemma UpdateAdmitsDuplicate(project: int)
    ensures
      var sites := map[1 := Site(project, None, None, {}, "A", true), 2 := Site(project, None, None, {}, "B", true)];
      UniqueIdentifiers(sites) && !UniqueIdentifiers(Renamed(sites, 2, "A"))
  {
    var sites := map[1 := Site(project, None, None, {}, "A", true), 2 := Site(project, None, None, {}, "B", true)];
    var r := Renamed(sites, 2, "A");
    assert r[1].identifier == r[2].identifier && r[1].project == r[2].project;
  }

  /** The update as intended: the identifier is compared before saving,
    * and a new identifier taken by another site of the project is
    * refused. */
  function UpdateIdentifierIntended(sites: map<int, Site>, pk: int, identifier: string): (r: Option<map<int, Site>>)
    requires pk in sites
    ensures r.None? <==> identifier != sites[pk].identifier && IdentifierTaken(sites, sites[pk].project, identifier)
    ensures r.Some? ==> r.value == Renamed(sites, pk, identifier)
    ensures r.Some? && UniqueIdentifiers(sites) ==> UniqueIdentifiers(r.value)
  {
    if identifier != sites[pk].identifier && IdentifierTaken(sites, sites[pk].project, identifier) then None
    else
      var r := Renamed(sites, pk, identifier);
      assert UniqueIdentifiers(sites) ==> UniqueIdentifiers(r) by {
        if UniqueIdentifiers(sites) {
          forall a, b | a in r && b in r && a != b && r[a].project == r[b].project
            ensures r[a].identifier != r[b].identifier
          {
            if a == pk && identifier != sites[pk].identifier {
              assert !(sites[b].project == sites[pk].project && sites[b].identifier == identifier);
            } else if b == pk && identifier != sites[pk].identifier {
              assert !(sites[a].project == sites[pk].project && sites[a].identifier == identifier);
            }
          }
        }
      }
      Some(r)
  }

  /** A soft-deleted site: inactive, its identifier suffixed with `_`
    * and its primary key. */
  function SoftDeleted(s: Site, pk: int): (r: Site)
    ensures !r.isActive && r.project == s.project && r.region == s.region && r.parent == s.parent
  {
    s.(isActive := false, identifier := s.identifier + "_" + IntToString(pk))
  }

  /** Deleting a site frees its identifier, which can be read back from the
    * suffixed one, and the primary key after the last `_` names the site. */
  lemma DestroyFreesIdentifier(s: Site, pk: int)
    ensures SoftDeleted(s, pk).identifier != s.identifier
    ensures SoftDeleted(s, pk).identifier[..|s.identifier|] == s.identifier
    ensures var t := SoftDeleted(s, pk).identifier; ParseInt(t[|s.identifier| + 1..]) == Some(pk)
  {
    var t := SoftDeleted(s, pk).identifier;
    assert |t| > |s.identifier|;
    assert t[|s.identifier| + 1..] == IntToString(pk);
    IntToStringParses(pk);
  }

  // -------------------------------------------------------- answer diff

  /** A site meta question as the project defines it: its name and text. */
  datatype MetaQuestion = MetaQuestion(name: string, text: string)

  /** Two dictionaries are equal in Python when they map the same keys to
    * the same values, whatever the order. */
  predicate SameDict(a: seq<(string, Value)>, b: seq<(string, Value)>)
  {
    (forall i :: 0 <= i < |a| ==> Get(b, a[i].0) == Get(a, a[i].0)) &&
    (forall i :: 0 <= i < |b| ==> Get(a, b[i].0) == Get(b, b[i].0))
  }

  /** Checking the keys of both sides is checking every key. */
  lemma SameDictIsEquality(a: seq<(string, Value)>, b: seq<(string, Value)>)
    ensures SameDict(a, b) ==> forall k :: Get(a, k) == Get(b, k)
    ensures (forall k :: Get(a, k) == Get(b, k)) ==> SameDict(a, b)
  {
    if SameDict(a, b) {
      forall k ensures Get(a, k) == Get(b, k) {
        if HasKey(a, k) {
          var i :| 0 <= i < |a| && a[i].0 == k;
          assert Get(b, a[i].0) == Get(a, a[i].0);
        } else if HasKey(b, k) {
          var i :| 0 <= i < |b| && b[i].0 == k;
          assert Get(a, b[i].0) == Get(b, b[i].0);
        } else {
          assert Get(a, k).None? && Get(b, k).None?;
        }
      }
    }
    if forall k :: Get(a, k) == Get(b, k) {
      assert forall i :: 0 <= i < |a| ==> Get(b, a[i].0) == Get(a, a[i].0);
      assert forall i :: 0 <= i < |b| ==> Get(a, b[i].0) == Get(b, b[i].0);
    }
  }

  /** The log entry for one changed answer. */
  function Change(text: string, before: seq<(string, Value)>, after: seq<(string, Value)>, key: string): Value
  {
    Dict([("label", Str(text)), ("data", List([GetOr(before, key, Str("null")), GetOr(after, key, Str("null"))]))])
  }

  /** `d.get(k)`: the stored answer, a missing key reading as None, so a
    * key holding JSON null and a missing key read alike. */
  function Answer(d: seq<(string, Value)>, k: string): (v: Value)
    ensures HasKey(d, k) ==> Some(v) == Get(d, k)
    ensures !HasKey(d, k) ==> v == Null
  {
    GetOr(d, k, Null)
  }

  /** The project questions whose answer changed, as `get` reads them. */
  predicate Changed(questions: seq<MetaQuestion>, before: seq<(string, Value)>, after: seq<(string, Value)>, k: string)
  {
    (exists q :: q in questions && q.name == k) && Answer(before, k) != Answer(after, k)
  }

  /** The `updated` dictionary: each question whose `get` differs between
    * the two answer sets, with its label and both answers ('null' when
    * missing), a later question of the same name overwriting. */
  function DiffOf(questions: seq<MetaQuestion>, before: seq<(string, Value)>, after: seq<(string, Value)>,
                  acc: seq<(string, Value)>): (r: seq<(string, Value)>)
    ensures forall k :: HasKey(r, k) <==> HasKey(acc, k) || Changed(questions, before, after, k)
    ensures forall k :: !Changed(questions, before, after, k) ==> Get(r, k) == Get(acc, k)
    ensures forall k :: Changed(questions, before, after, k) ==>
      exists q :: q in questions && q.name == k && Get(r, k) == Some(Change(q.text, before, after, k))
    decreases |questions|
  {
    if questions == [] then acc
    else
      var q := questions[0];
      var acc' := if Answer(before, q.name) != Answer(after, q.name) then Put(acc, q.name, Change(q.text, before, after, q.name)) else acc;
      var r := DiffOf(questions[1..], before, after, acc');
      assert forall k :: Changed(questions, before, after, k) <==>
        (Changed(questions[1..], before, after, k) || (k == q.name && Answer(before, k) != Answer(after, k))) by {
        forall k | Changed(questions, before, after, k)
          ensures Changed(questions[1..], before, after, k) || (k == q.name && Answer(before, k) != Answer(after, k))
        {
          var p :| p in questions && p.name == k;
          if p != q { assert p in questions[1..]; }
        }
      }
      assert forall k :: HasKey(acc', k) <==> HasKey(acc, k) || (k == q.name && Answer(before, k) != Answer(after, k)) by {
        forall k ensures HasKey(acc', k) <==> HasKey(acc, k) || (k == q.name && Answer(before, k) != Answer(after, k)) {
          assert Get(acc', k).Some? <==> HasKey(acc', k);
          assert Get(acc, k).Some? <==> HasKey(acc, k);
        }
      }
      r
  }

  /** The `extra_json` of the edit log: None when the answers are equal,
    * else the changed questions. The dictionary is filled in a loop. */
  method MetaDiff(questions: seq<MetaQuestion>, before: seq<(string, Value)>, after: seq<(string, Value)>)
    returns (r: Option<seq<(string, Value)>>)
    ensures SameDict(before, after) ==> r.None?
    ensures !SameDict(before, after) ==> r == Some(DiffOf(questions, before, after, []))
  {
    if SameDict(before, after) {
      return None;
    }
    var updated: seq<(string, Value)> := [];
    var i := 0;
    while i < |questions|
      invariant 0 <= i <= |questions|
      invariant DiffOf(questions, before, after, []) == DiffOf(questions[i..], before, after, updated)
    {
      assert questions[i..][0] == questions[i] && questions[i..][1..] == questions[i + 1..];
      var key := questions[i].name;
      if Answer(before, key) != Answer(after, key) {
        updated := Put(updated, key, Change(questions[i].text, before, after, key));
      }
      i := i + 1;
    }
    assert questions[i..] == [];
    return Some(updated);
  }

  /** The diff lists exactly the changed questions; it can be empty when
    * only answers outside the project's questions changed. */
  lemma DiffListsExactlyChanged(questions: seq<MetaQuestion>, before: seq<(string, Value)>, after: seq<(string, Value)>)
    ensures forall k :: HasKey(DiffOf(questions, before, after, []), k) <==> Changed(questions, before, after, k)
    ensures questions == [] ==> DiffOf(questions, before, after, []) == []
  {
  }

  /** A question answered null before and absent after has not changed:
    * both sides read None, so the diff leaves it out. */
  lemma NullAnswerMatchesMissing(q: MetaQuestion, after: seq<(string, Value)>)
    requires !HasKey(after, q.name)
    ensures !Changed([q], [(q.name, Null)], after, q.name)
    ensures DiffOf([q], [(q.name, Null)], after, []) == []
  {
    assert Answer([(q.name, Null)], q.name) == Null by {
      assert [(q.name, Null)][0].0 == q.name;
    }
    NoKeysMeansEmpty(DiffOf([q], [(q.name, Null)], after, []));
  }

  // -------------------------------------------------- ProjectDefineSiteMeta

  /** `del xs[xs.index(x)]` when `x in xs`: the first occurrence removed. */
  function RemoveFirst(xs: seq<Meta>, x: Meta): (r: seq<Meta>)
    ensures x !in xs ==> r == xs
    ensures x in xs ==> |r| == |xs| - 1 && multiset(r) == multiset(xs) - multiset{x}
    ensures forall m :: m in xs && m != x ==> m in r
  {
    if xs == [] then []
    else if xs[0] == x then
      assert xs == [xs[0]] + xs[1..];
      xs[1..]
    else
      var r := [xs[0]] + RemoveFirst(xs[1..], x);
      assert xs == [xs[0]] + xs[1..];
      r
  }

  /** Each deleted meta removed once, in order. */
  function RemoveEach(xs: seq<Meta>, deleted: seq<Meta>): (r: seq<Meta>)
    ensures multiset(r) <= multiset(xs)
    ensures forall m :: m in xs && m !in deleted ==> m in r
    decreases |deleted|
  {
    if deleted == [] then xs
    else
      assert forall m :: m in deleted[1..] ==> m in deleted;
      RemoveEach(RemoveFirst(xs, deleted[0]), deleted[1..])
  }

  /** One meta of another project after the clean-up: a Link whose
    * selection has an entry for this project loses the deleted metas from
    * that entry. A Link without a selection raises, which the code
    * swallows, leaving the meta as it was. */
  function Prune(m: Meta, key: string, deleted: seq<Meta>): (r: Meta)
    ensures r.questionName == m.questionName && r.questionType == m.questionType
    ensures r.questionType != "Link" || m.metas.None? || !HasKey(m.metas.value, key) ==> r == m
  {
    if m.questionType == "Link" && m.metas.Some? && HasKey(m.metas.value, key) then
      m.(metas := Some(Put(m.metas.value, key, RemoveEach(Get(m.metas.value, key).value, deleted))))
    else m
  }

  /** The metas `old` has and `new` lacks, in order. */
  function DeletedMetas(before: seq<Meta>, after: seq<Meta>): (r: seq<Meta>)
    ensures forall m :: m in r <==> m in before && m !in after
  {
    Where(before, m => m !in after)
  }

  /** A Project row: its organization and its meta definitions. */
  datatype ProjectRow = ProjectRow(id: int, organization: int, metas: seq<Meta>, basicInfo: Value, featuredImages: Value)

  /** The project table, rows edited in place. */
  class ProjectTable {
    var rows: seq<ProjectRow>

    constructor(rows0: seq<ProjectRow>)
      ensures rows == rows0
    {
      rows := rows0;
    }

    /** `ProjectDefineSiteMeta.post` for project `pk` (row `at`): when the
      * metas change, every project of the organization (this one
      * included) has the deleted metas pruned from its Links' entries for
      * this project; then this project takes the new metas. */
    method DefineSiteMeta(at: int, newMetas: seq<Meta>, basicInfo: Value, featuredImages: Value)
      requires 0 <= at < |rows|
      modifies this
      ensures |rows| == |old(rows)|
      ensures rows[at] == old(rows)[at].(metas := newMetas, basicInfo := basicInfo, featuredImages := featuredImages)
      ensures forall i :: 0 <= i < |rows| && i != at ==>
        rows[i] == PrunedRow(old(rows)[i], old(rows)[at].organization, IntToString(old(rows)[at].id),
                             if old(rows)[at].metas != newMetas then DeletedMetas(old(rows)[at].metas, newMetas) else [])
    {
      var project := rows[at];
      var key := IntToString(project.id);
      if project.metas != newMetas {
        var deleted := Deleted(project.metas, newMetas);
        PruneOrganization(project.organization, key, deleted);
      } else {
        forall i | 0 <= i < |rows| ensures rows[i] == PrunedRow(rows[i], project.organization, key, []) {
          PruneNothing(rows[i].metas, key);
        }
      }
      rows := rows[at := project.(metas := newMetas, basicInfo := basicInfo, featuredImages := featuredImages)];
    }

    /** The loop over the organization's projects. */
    method PruneOrganization(organization: int, key: string, deleted: seq<Meta>)
      modifies this
      ensures |rows| == |old(rows)|
      ensures forall j :: 0 <= j < |rows| ==> rows[j] == PrunedRow(old(rows)[j], organization, key, deleted)
    {
      var i := 0;
      while i < |rows|
        invariant 0 <= i <= |rows| && |rows| == |old(rows)|
        invariant forall j :: 0 <= j < i ==> rows[j] == PrunedRow(old(rows)[j], organization, key, deleted)
        invariant forall j :: i <= j < |rows| ==> rows[j] == old(rows)[j]
      {
        rows := rows[i := PrunedRow(rows[i], organization, key, deleted)];
        i := i + 1;
      }
    }
  }

  /** The metas of `before` missing from `after`, collected in a loop. */
  method Deleted(before: seq<Meta>, after: seq<Meta>) returns (deleted: seq<Meta>)
    ensures deleted == DeletedMetas(before, after)
  {
    deleted := [];
    var d := 0;
    while d < |before|
      invariant 0 <= d <= |before|
      invariant deleted == DeletedMetas(before[..d], after)
    {
      assert before[..d + 1] == before[..d] + [before[d]];
      WhereAppend(before[..d], [before[d]], m => m !in after);
      if before[d] !in after {
        deleted := deleted + [before[d]];
      }
      d := d + 1;
    }
    assert before[..d] == before;
  }

  /** A project row after the clean-up: those of the organization have
    * every meta pruned, the others are untouched. */
  function PrunedRow(p: ProjectRow, organization: int, key: string, deleted: seq<Meta>): (r: ProjectRow)
    ensures r.id == p.id && r.organization == p.organization
    ensures r.basicInfo == p.basicInfo && r.featuredImages == p.featuredImages
    ensures p.organization != organization ==> r == p
    ensures p.organization == organization ==> r.metas == PruneAll(p.metas, key, deleted)
  {
    if p.organization == organization then p.(metas := PruneAll(p.metas, key, deleted)) else p
  }

  /** With nothing deleted the clean-up changes nothing. */
  lemma PruneNothing(metas: seq<Meta>, key: string)
    ensures PruneAll(metas, key, []) == metas
  {
    forall i | 0 <= i < |metas| ensures PruneAll(metas, key, [])[i] == metas[i] {
      var m := metas[i];
      if m.questionType == "Link" && m.metas.Some? && HasKey(m.metas.value, key) {
        PutPresent(m.metas.value, key);
      }
    }
  }

  /** Every meta of a project pruned. */
  function PruneAll(metas: seq<Meta>, key: string, deleted: seq<Meta>): (r: seq<Meta>)
    ensures |r| == |metas|
    ensures forall i :: 0 <= i < |metas| ==> r[i] == Prune(metas[i], key, deleted)
  {
    Map(metas, m => Prune(m, key, deleted))
  }

  /** The clean-up only removes: every meta a Link listed for this project
    * is still listed unless it was deleted, and nothing is added. */
  lemma PruneOnlyRemovesDeleted(m: Meta, key: string, deleted: seq<Meta>)
    requires m.questionType == "Link" && m.metas.Some? && HasKey(m.metas.value, key)
    ensures Prune(m, key, deleted).metas.Some?
    ensures var before := Get(m.metas.value, key).value;
      var after := Get(Prune(m, key, deleted).metas.value, key).value;
      multiset(after) <= multiset(before) && forall x :: x in before && x !in deleted ==> x in after
  {
  }
}
