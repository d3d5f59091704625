/** The form views of fv3/viewsets/FormsViewset.py: adding a language to a
  * form's content in place, the set of project forms a user sees, and whom
  * the project and team share views send a form to. */
module FormsViewset {
  import opened Common
  import opened UserRoles

  /** A row of the form's `survey` sheet: its `label` list when the row has
    * a 'label' key (one entry per translation), and the rest of the row. */
  datatype SurveyRow = SurveyRow(name: string, labels: Option<seq<Option<string>>>)

  /** `u'' + language + ' ' + '(' + code + ')'`. */
  function TranslationName(language: string, code: string): (r: string)
    ensures |r| == |language| + |code| + 3
    ensures r[..|language|] == language && r[|r| - 1] == ')'
  {
    language + " (" + code + ")"
  }

  /** One row after `row['label'].append(None)`; rows without a label are
    * left alone. */
  function WithBlankLabel(row: SurveyRow): (r: SurveyRow)
    ensures r.name == row.name && r.labels.Some? == row.labels.Some?
    ensures row.labels.Some? ==> r.labels.value == row.labels.value + [None]
  {
    if row.labels.Some? then row.(labels := Some(row.labels.value + [None])) else row
  }

  /** The survey sheet after the loop of `FormAddLanguageViewSet.post`. */
  function WithBlankLabels(rows: seq<SurveyRow>): (r: seq<SurveyRow>)
    ensures |r| == |rows|
    ensures forall i :: 0 <= i < |rows| ==> r[i] == WithBlankLabel(rows[i])
  {
    Map(rows, WithBlankLabel)
  }

  /** Every labelled row carries one label per translation. */
  predicate Aligned(translations: seq<Option<string>>, rows: seq<SurveyRow>)
  {
    forall i :: 0 <= i < |rows| && rows[i].labels.Some? ==> |rows[i].labels.value| == |translations|
  }

  /** Adding a language keeps a well-formed form well-formed: the new
    * translation gets a blank label on every labelled row, and the existing
    * labels keep their positions. */
  lemma AddingALanguageKeepsLabelsAligned(translations: seq<Option<string>>, rows: seq<SurveyRow>, t: string)
    requires Aligned(translations, rows)
    ensures Aligned(translations + [Some(t)], WithBlankLabels(rows))
    ensures forall i, k :: 0 <= i < |rows| && rows[i].labels.Some? && 0 <= k < |rows[i].labels.value| ==>
      WithBlankLabels(rows)[i].labels.value[k] == rows[i].labels.value[k]
  {
  }

  /** The KPI asset the form's `id_string` names. `translations` is None when
    * the content has no 'translations' key; the survey rows are edited in
    * place; `saves` counts `a.save()`. */
  class Asset {
    var translations: Option<seq<Option<string>>>
    const hasSurvey: bool
    const survey: array<SurveyRow>
    var saves: nat

    constructor(translations0: Option<seq<Option<string>>>, hasSurvey0: bool, rows: seq<SurveyRow>)
      ensures translations == translations0 && hasSurvey == hasSurvey0 && survey[..] == rows && saves == 0
      ensures fresh(survey)
    {
      translations := translations0;
      hasSurvey := hasSurvey0;
      survey := new SurveyRow[|rows|](i requires 0 <= i < |rows| => rows[i]);
      saves := 0;
    }

    /** `FormAddLanguageViewSet.post` once the form and asset are found:
      * without 'translations' the answer is 400 and nothing changes;
      * otherwise one translation is appended, every labelled survey row gets
      * a blank label, the asset is saved and the answer is 201. */
    method AddLanguage(language: string, code: string) returns (status: int)
      modifies this, survey
      ensures old(translations).None? ==>
        status == 400 && translations == old(translations) && survey[..] == old(survey[..]) && saves == old(saves)
      ensures old(translations).Some? ==>
        status == 201 &&
        translations == Some(old(translations).value + [Some(TranslationName(language, code))]) &&
        survey[..] == (if hasSurvey then WithBlankLabels(old(survey[..])) else old(survey[..])) &&
        saves == old(saves) + 1
    {
      if translations.None? {
        return 400;
      }
      translations := Some(translations.value + [Some(TranslationName(language, code))]);
      if hasSurvey {
        var i := 0;
        while i < survey.Length
          invariant 0 <= i <= survey.Length
          invariant translations == Some(old(translations).value + [Some(TranslationName(language, code))])
          invariant saves == old(saves)
          invariant forall k :: 0 <= k < i ==> survey[k] == WithBlankLabel(old(survey[k]))
          invariant forall k :: i <= k < survey.Length ==> survey[k] == old(survey[k])
        {
          survey[i] := WithBlankLabel(survey[i]);
          i := i + 1;
        }
      }
      saves := saves + 1;
      return 201;
    }
  }

  /** A FieldSightXF row: the KPI form it wraps and the project it is
    * attached to (None for a site-level form). */
  datatype FormLink = FormLink(xf: int, project: Option<int>)

  /** A project of one of the user's active roles, or a project of an
    * organization the user is an active Org Admin of. */
  predicate VisibleProject(h: Hierarchy, roles: seq<Role>, p: int)
  {
    (exists x :: x in roles && Active(x) && x.project == Some(p)) ||
    (p in h.projects &&
     exists x :: x in roles && Active(x) && x.group == OrganizationAdmin && x.organization == Some(h.projects[p].organization))
  }

  /** A FieldSightXF row the user is shown: attached to a visible project,
    * and wrapping a KPI form the user does not own. */
  predicate Shown(h: Hierarchy, roles: seq<Role>, user: int, owner: map<int, int>, f: FormLink)
    requires f.xf in owner
  {
    owner[f.xf] != user && f.project.Some? && VisibleProject(h, roles, f.project.value)
  }

  /** The number of rows shown that wrap form `x`. */
  function ShownCount(h: Hierarchy, roles: seq<Role>, user: int, links: seq<FormLink>, owner: map<int, int>, x: int): nat
    requires forall f :: f in links ==> f.xf in owner
  {
    if links == [] then 0
    else (if links[0].xf == x && Shown(h, roles, user, owner, links[0]) then 1 else 0) +
         ShownCount(h, roles, user, links[1..], owner, x)
  }

  /** The filter of `get_queryset` as the code computes it: the projects
    * of the active roles (`project__in`, where a null project matches
    * nothing), plus the projects of the organizations of the active Org
    * Admin roles; rows whose KPI form the user owns are excluded. */
  predicate Listed(h: Hierarchy, roles: seq<Role>, user: int, owner: map<int, int>, f: FormLink)
    requires f.xf in owner
  {
    var projects := set x | x in roles && Active(x) :: x.project;
    var organizations := set x | x in roles && Active(x) && GroupName(x.group) == "Organization Admin" :: x.organization;
    var adminProjects := set p | p in h.projects && Some(h.projects[p].organization) in organizations;
    f.project.Some? && (f.project in projects || f.project.value in adminProjects) && owner[f.xf] != user
  }

  /** The code's filter selects exactly the rows shown. */
  lemma ListedIsShown(h: Hierarchy, roles: seq<Role>, user: int, owner: map<int, int>, f: FormLink)
    requires f.xf in owner
    ensures Listed(h, roles, user, owner, f) <==> Shown(h, roles, user, owner, f)
  {
  }

  /** The KPI forms of the filtered FieldSightXF rows, in table order: one
    * entry per row, so a form wrapped by several rows appears as often. */
  function ListedForms(h: Hierarchy, roles: seq<Role>, user: int, links: seq<FormLink>, owner: map<int, int>): (r: seq<int>)
    requires forall f :: f in links ==> f.xf in owner
    ensures forall x :: multiset(r)[x] == ShownCount(h, roles, user, links, owner, x)
  {
    if links == [] then []
    else
      ListedIsShown(h, roles, user, owner, links[0]);
      (if Listed(h, roles, user, owner, links[0]) then [links[0].xf] else []) +
      ListedForms(h, roles, user, links[1..], owner)
  }

  /** `MyProjectFormsViewSet.get_queryset`: `[f.xf for f in ...]` over the
    * filtered rows, `order_by("xf")`. */
  function MyProjectForms(h: Hierarchy, roles: seq<Role>, user: int, links: seq<FormLink>, owner: map<int, int>): (r: seq<int>)
    requires forall f :: f in links ==> f.xf in owner
    ensures Ascending(r)
    ensures forall x :: multiset(r)[x] == ShownCount(h, roles, user, links, owner, x)
  {
    SortAscending(ListedForms(h, roles, user, links, owner))
  }

  /** Some row shown wraps `x` iff the count of such rows is positive. */
  lemma {:induction false} ShownCountPositive(h: Hierarchy, roles: seq<Role>, user: int, links: seq<FormLink>,
                                              owner: map<int, int>, x: int)
    requires forall f :: f in links ==> f.xf in owner
    ensures ShownCount(h, roles, user, links, owner, x) > 0 <==>
      exists f :: f in links && f.xf == x && Shown(h, roles, user, owner, f)
  {
    if links != [] {
      ShownCountPositive(h, roles, user, links[1..], owner, x);
      if exists f :: f in links && f.xf == x && Shown(h, roles, user, owner, f) {
        var f :| f in links && f.xf == x && Shown(h, roles, user, owner, f);
        if f != links[0] {
          assert f in links[1..];
        }
      }
    }
  }

  /** A form is listed iff some row shown wraps it. */
  lemma MyProjectFormsMembers(h: Hierarchy, roles: seq<Role>, user: int, links: seq<FormLink>, owner: map<int, int>, x: int)
    requires forall f :: f in links ==> f.xf in owner
    ensures x in MyProjectForms(h, roles, user, links, owner) <==>
      exists f :: f in links && f.xf == x && owner[x] != user && f.project.Some? && VisibleProject(h, roles, f.project.value)
  {
    ShownCountPositive(h, roles, user, links, owner, x);
  }

  /** Two rows that wrap the same form list it twice. */
  lemma SharedFormListedPerRow(h: Hierarchy, roles: seq<Role>, user: int, f: FormLink, g: FormLink, owner: map<int, int>)
    requires f.xf in owner && g.xf == f.xf
    requires Shown(h, roles, user, owner, f) && Shown(h, roles, user, owner, g)
    ensures MyProjectForms(h, roles, user, [f, g], owner) == [f.xf, f.xf]
  {
    var a := f.xf;
    ListedIsShown(h, roles, user, owner, f);
    ListedIsShown(h, roles, user, owner, g);
    assert ListedForms(h, roles, user, [g], owner) == [a] by { assert [g][1..] == []; }
    assert ListedForms(h, roles, user, [f, g], owner) == [a, a] by { assert [f, g][1..] == [g]; }
    assert SortAscending([a]) == [a] by { assert [a][..0] == []; }
    assert SortAscending([a, a]) == [a, a] by { assert [a, a][..1] == [a]; }
  }

  /** An active Org Admin sees every form of every project of the
    * organization, except the forms they own. */
  lemma OrgAdminSeesTheTeamForms(h: Hierarchy, roles: seq<Role>, user: int, links: seq<FormLink>, owner: map<int, int>,
                                 x: Role, f: FormLink)
    requires forall f :: f in links ==> f.xf in owner
    requires x in roles && Active(x) && x.group == OrganizationAdmin
    requires f in links && f.project.Some? && f.project.value in h.projects
    requires x.organization == Some(h.projects[f.project.value].organization) && owner[f.xf] != user
    ensures f.xf in MyProjectForms(h, roles, user, links, owner)
  {
    MyProjectFormsMembers(h, roles, user, links, owner, f.xf);
  }

  /** Roles that have ended give access to no form, and a user never sees a
    * form they own. */
  lemma EndedRolesShowNoForms(h: Hierarchy, roles: seq<Role>, user: int, links: seq<FormLink>, owner: map<int, int>)
    requires forall f :: f in links ==> f.xf in owner
    ensures (forall x :: x in roles ==> !Active(x)) ==> MyProjectForms(h, roles, user, links, owner) == []
    ensures forall xf :: xf in MyProjectForms(h, roles, user, links, owner) ==> xf in owner && owner[xf] != user
  {
    var r := MyProjectForms(h, roles, user, links, owner);
    forall xf | xf in r ensures xf in owner && owner[xf] != user && exists x :: x in roles && Active(x) {
      MyProjectFormsMembers(h, roles, user, links, owner, xf);
      var f :| f in links && f.xf == xf && owner[xf] != user && f.project.Some? && VisibleProject(h, roles, f.project.value);
    }
    if r != [] {
      assert r[0] in r;
    }
  }

  /** `ShareProjectFormViewSet`: the users of the active roles with
    * `project=project`, a group named "Project Manager" or "Organization
    * Admin", and `organization=project.organization`. */
  function ShareProjectRecipients(h: Hierarchy, store: seq<Role>, project: int): (r: set<int>)
    requires project in h.projects
    ensures forall u :: u in r ==> exists x :: x in store && x.user == u && Active(x) && x.project == Some(project)
    ensures forall u :: u in r <==> exists x :: (x in store && x.user == u && Active(x) && x.project == Some(project) &&
      x.group in {ProjectManager, OrganizationAdmin} && x.organization == Some(h.projects[project].organization))
  {
    set x | x in store && x.project == Some(project) &&
            GroupName(x.group) in ["Project Manager", "Organization Admin"] &&
            x.organization == Some(h.projects[project].organization) && Active(x) :: x.user
  }

  /** `save` clears the project of an Org Admin role, which the project
    * filter then excludes: in a store `save` wrote, the project share
    * reaches the project's active managers and no one else. */
  lemma ProjectShareReachesOnlyManagers(h: Hierarchy, store: seq<Role>, project: int)
    requires project in h.projects
    requires forall x :: x in store && x.group == OrganizationAdmin ==> x.project.None?
    ensures ShareProjectRecipients(h, store, project) ==
      set x | x in store && x.group == ProjectManager && x.project == Some(project) &&
              x.organization == Some(h.projects[project].organization) && Active(x) :: x.user
  {
  }

  /** Every Org Admin role `save` produces has no project. */
  lemma SavedOrgAdminHasNoProject(h: Hierarchy, r: Role)
    requires Wf(h) && RefsResolve(h, r) && r.group == OrganizationAdmin
    ensures SaveDerivation(h, r).Some? && SaveDerivation(h, r).value.project.None?
  {
  }

  /** Hence an Org Admin of the project's organization, saved the normal
    * way, never receives the project share. */
  lemma OrgAdminMissesProjectShare(project: int, org: int, admin: int)
    ensures
      var h := Hierarchy(map[org := Organization(true)], map[project := Project(org, true, false)], map[], map[], map[]);
      var x := Role(1, admin, OrganizationAdmin, Some(org), None, None, None, None, 0, None);
      admin !in ShareProjectRecipients(h, [x], project) && admin in ShareProjectRecipientsIntended(h, [x], project)
  {
    var h := Hierarchy(map[org := Organization(true)], map[project := Project(org, true, false)], map[], map[], map[]);
    var x := Role(1, admin, OrganizationAdmin, Some(org), None, None, None, None, 0, None);
    assert x in [x];
  }

  /** The project share as its description has it, "the project managers of
    * a project and the organization admin": the active managers of the
    * project and the active Org Admins of its organization. */
  function ShareProjectRecipientsIntended(h: Hierarchy, store: seq<Role>, project: int): (r: set<int>)
    requires project in h.projects
    ensures forall u :: u in r <==> exists x :: (x in store && x.user == u && Active(x) &&
      ((x.group == ProjectManager && x.project == Some(project)) ||
       (x.group == OrganizationAdmin && x.organization == Some(h.projects[project].organization))))
  {
    var org := h.projects[project].organization;
    set x | x in store && Active(x) &&
            ((x.group == ProjectManager && x.project == Some(project)) ||
             (x.group == OrganizationAdmin && x.organization == Some(org))) :: x.user
  }

  /** The corrected share still reaches every manager the written one does. */
  lemma IntendedShareWidensWrittenShare(h: Hierarchy, store: seq<Role>, project: int)
    requires project in h.projects
    ensures ShareProjectRecipients(h, store, project) <= ShareProjectRecipientsIntended(h, store, project)
  {
    forall u | u in ShareProjectRecipients(h, store, project)
      ensures u in ShareProjectRecipientsIntended(h, store, project)
    {
      var x :| x in store && x.project == Some(project) &&
               GroupName(x.group) in ["Project Manager", "Organization Admin"] &&
               x.organization == Some(h.projects[project].organization) && Active(x) && x.user == u;
      assert x.group in {ProjectManager, OrganizationAdmin};
    }
  }

  /** `ShareTeamFormViewSet`: the users of the active Project Manager and
    * Org Admin roles of organization `team`. */
  function ShareTeamRecipients(store: seq<Role>, team: int): (r: set<int>)
    ensures forall u :: u in r <==> exists x :: (x in store && x.user == u && Active(x) &&
      x.group in {ProjectManager, OrganizationAdmin} && x.organization == Some(team))
  {
    set x | x in store && x.organization == Some(team) &&
            GroupName(x.group) in ["Project Manager", "Organization Admin"] && Active(x) :: x.user
  }
}
