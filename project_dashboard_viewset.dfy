/** The project dashboard endpoints of fv3/viewsets/ProjectDashboardViewSet.py:
  * the survey form links, the regions and site types of a project, and the
  * site form viewset that creates, edits and soft-deletes sites, logging
  * each change. */
module ProjectDashboardViews {
  import opened Common
  import opened JsonValues
  import opened Fv3Views

  // ------------------------------------------------------------ surveys

  /** A FieldSightXF row as the survey listing filters it. */
  datatype XfRow = XfRow(id: int, title: string, isStaged: bool, isScheduled: bool, isDeleted: bool,
                         project: Option<int>, isSurvey: bool)

  /** The survey forms of a project: neither staged nor scheduled, not
    * deleted, marked as survey. */
  predicate IsSurveyOf(x: XfRow, project: int)
  {
    !x.isStaged && !x.isScheduled && !x.isDeleted && x.project == Some(project) && x.isSurvey
  }

  const NewSubmissionPrefix := "/forms/new/0/"

  /** `'/forms/new/0/' + str(obj.id)`. */
  function SurveyUrl(id: int): string
  {
    NewSubmissionPrefix + IntToString(id)
  }

  /** The submission link names its form: the text after the prefix reads
    * back as the form's id. */
  lemma SurveyUrlNamesForm(id: int)
    ensures |SurveyUrl(id)| > |NewSubmissionPrefix|
    ensures SurveyUrl(id)[..|NewSubmissionPrefix|] == NewSubmissionPrefix
    ensures ParseInt(SurveyUrl(id)[|NewSubmissionPrefix|..]) == Some(id)
  {
    var u := SurveyUrl(id);
    assert u[|NewSubmissionPrefix|..] == IntToString(id);
    IntToStringParses(id);
  }

  /** `ProjectSurveyFormsViewSet.get`: 404 for an unknown project, else one
    * (title, submission link) pair per survey form, in table order. */
  function SurveyLinks(projects: map<int, Project>, project: int, forms: seq<XfRow>): (r: Option<seq<(string, string)>>)
    ensures r.None? <==> project !in projects
    ensures r.Some? ==> |r.value| == |Where(forms, x => IsSurveyOf(x, project))|
    ensures r.Some? ==> forall i :: 0 <= i < |r.value| ==>
      var x := Where(forms, x => IsSurveyOf(x, project))[i];
      x in forms && IsSurveyOf(x, project) && r.value[i] == (x.title, SurveyUrl(x.id))
  {
    if project !in projects then None
    else Some(Map(Where(forms, x => IsSurveyOf(x, project)), (x: XfRow) => (x.title, SurveyUrl(x.id))))
  }

  // ----------------------------------------------- project_regions_types

  datatype RegionRow = RegionRow(id: int, project: int, isActive: bool, identifier: string, name: string)
  datatype SiteTypeRow = SiteTypeRow(id: int, project: int, deleted: bool, identifier: string, name: string)

  /** `project_regions_types`: 404 unless the project exists and is active;
    * else its active regions and its site types not deleted. */
  function RegionsTypes(projects: map<int, Project>, regions: seq<RegionRow>, types: seq<SiteTypeRow>, project: int)
    : (r: Option<(seq<RegionRow>, seq<SiteTypeRow>)>)
    ensures r.None? <==> project !in projects || !projects[project].isActive
    ensures r.Some? ==> forall g :: g in r.value.0 <==> g in regions && g.project == project && g.isActive
    ensures r.Some? ==> forall t :: t in r.value.1 <==> t in types && t.project == project && !t.deleted
  {
    if project !in projects || !projects[project].isActive then None
    else Some((Where(regions, (g: RegionRow) => g.project == project && g.isActive),
               Where(types, (t: SiteTypeRow) => t.project == project && !t.deleted)))
  }

  // ------------------------------------------------------ SiteFormViewSet

  /** The log types the viewset writes. */
  const NewSiteLog := 11
  const NewSubSiteLog := 110
  const EditSiteLog := 15
  const DeleteSiteLog := 36

  /** An entry of a site's activity log. */
  datatype LogEntry = LogEntry(kind: int, title: string, site: int, extra: Option<seq<(string, Value)>>)

  /** The log written on creation: a sub-site when the request carries a
    * parent site that is not null. */
  function CreationLog(parentGiven: bool, site: int): (r: LogEntry)
    ensures r.kind == NewSubSiteLog <==> parentGiven
    ensures r.kind == NewSiteLog <==> !parentGiven
    ensures r.site == site && r.extra.None?
  {
    if parentGiven then LogEntry(NewSubSiteLog, "new sub Site", site, None)
    else LogEntry(NewSiteLog, "new Site", site, None)
  }

  datatype DestroyStatus = Ok200 | NoContent204

  /** The site table with each site's meta answers, the submissions made at
    * each site and the activity log. */
  class SiteForms {
    var sites: map<int, Site>
    var answers: map<int, seq<(string, Value)>>
    var submissionSite: map<int, int>
    var deletedSubmissions: set<int>
    var logs: seq<LogEntry>
    var nextId: int

    predicate Valid()
      reads this
    {
      (forall k :: k in sites ==> k < nextId) && answers.Keys == sites.Keys
    }

    constructor(sites0: map<int, Site>, answers0: map<int, seq<(string, Value)>>, submissionSite0: map<int, int>, nextId0: int)
      requires forall k :: k in sites0 ==> k < nextId0
      requires answers0.Keys == sites0.Keys
      ensures Valid()
      ensures sites == sites0 && answers == answers0 && submissionSite == submissionSite0
      ensures deletedSubmissions == {} && logs == [] && nextId == nextId0
    {
      sites := sites0;
      answers := answers0;
      submissionSite := submissionSite0;
      deletedSubmissions := {};
      logs := [];
      nextId := nextId0;
    }

    /** `create`: the serializer saves the site with its answers; the log
      * says whether a sub-site was made. */
    method Create(s: Site, siteAnswers: seq<(string, Value)>, parentGiven: bool) returns (id: int)
      requires Valid()
      modifies this
      ensures Valid()
      ensures id == old(nextId) && id !in old(sites) && nextId == old(nextId) + 1
      ensures sites == old(sites)[id := s] && answers == old(answers)[id := siteAnswers]
      ensures logs == old(logs) + [CreationLog(parentGiven, id)]
      ensures submissionSite == old(submissionSite) && deletedSubmissions == old(deletedSubmissions)
    {
      id := nextId;
      sites := sites[id := s];
      answers := answers[id := siteAnswers];
      nextId := nextId + 1;
      logs := logs + [CreationLog(parentGiven, id)];
    }

    /** `update`: the answers read before the save are compared with those
      * saved, and the edit is logged with the changed questions, or with
      * no detail when the answers are equal. */
    method Update(pk: int, siteAnswers: seq<(string, Value)>, questions: seq<MetaQuestion>) returns (found: bool)
      requires Valid()
      modifies this
      ensures Valid()
      ensures found <==> pk in old(sites)
      ensures !found ==> sites == old(sites) && answers == old(answers) && logs == old(logs)
      ensures found ==> answers == old(answers)[pk := siteAnswers] && sites == old(sites)
      ensures found ==> logs == old(logs) + [LogEntry(EditSiteLog, "edit Site", pk,
        if SameDict(old(answers)[pk], siteAnswers) then None
        else Some(DiffOf(questions, old(answers)[pk], siteAnswers, [])))]
      ensures submissionSite == old(submissionSite) && deletedSubmissions == old(deletedSubmissions)
      ensures nextId == old(nextId)
    {
      if pk !in sites {
        return false;
      }
      var before := answers[pk];
      answers := answers[pk := siteAnswers];
      var extra := MetaDiff(questions, before, siteAnswers);
      logs := logs + [LogEntry(EditSiteLog, "edit Site", pk, extra)];
      return true;
    }

    /** `destroy`: 204 when there is no such site; else the site is
      * soft-deleted, its submissions are marked deleted and the deletion
      * is logged. */
    method Destroy(pk: int) returns (status: DestroyStatus)
      requires Valid()
      modifies this
      ensures Valid()
      ensures status == NoContent204 <==> pk !in old(sites)
      ensures status == NoContent204 ==> sites == old(sites) && logs == old(logs) && deletedSubmissions == old(deletedSubmissions)
      ensures status == Ok200 ==> sites == old(sites)[pk := SoftDeleted(old(sites)[pk], pk)]
      ensures status == Ok200 ==> deletedSubmissions == old(deletedSubmissions) + SubmissionsAt(old(submissionSite), pk)
      ensures status == Ok200 ==> logs == old(logs) + [LogEntry(DeleteSiteLog, "Delete Site", pk, None)]
      ensures answers == old(answers) && submissionSite == old(submissionSite) && nextId == old(nextId)
    {
      if pk !in sites {
        return NoContent204;
      }
      sites := sites[pk := SoftDeleted(sites[pk], pk)];
      deletedSubmissions := deletedSubmissions + SubmissionsAt(submissionSite, pk);
      logs := logs + [LogEntry(DeleteSiteLog, "Delete Site", pk, None)];
      return Ok200;
    }
  }

  /** The submissions made at a site. */
  function SubmissionsAt(submissionSite: map<int, int>, site: int): (r: set<int>)
    ensures forall i :: i in r <==> i in submissionSite && submissionSite[i] == site
  {
    set i | i in submissionSite && submissionSite[i] == site
  }

  /** An edit that changes only answers outside the project's questions is
    * logged with an empty detail, not with none. */
  lemma EditOutsideQuestionsLogsEmptyDetail(questions: seq<MetaQuestion>, before: seq<(string, Value)>,
                                            after: seq<(string, Value)>)
    requires !SameDict(before, after)
    requires forall q :: q in questions ==> Answer(before, q.name) == Answer(after, q.name)
    ensures DiffOf(questions, before, after, []) == []
  {
    DiffListsExactlyChanged(questions, before, after);
    NoKeysMeansEmpty(DiffOf(questions, before, after, []));
  }
}
