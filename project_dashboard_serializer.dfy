/** The computed fields of fv3/serializers/ProjectDashboardSerializer.py:
  * whether the requester manages the project, the week's activity and the
  * submission totals, the submission chart sampled by `date_range`, the
  * terms and labels with their defaults, and the breadcrumbs. */
module ProjectDashboardSerializer {
  import opened Common
  import opened JsonValues
  import opened LineData
  import opened RoleMixins

  // ------------------------------------------------ get_is_project_manager

  /** `get_is_project_manager`: Project Manager of the project, super admin,
    * or Organization Admin of its organization. */
  predicate IsProjectManager(req: Request, h: Hierarchy, project: int)
    requires project in h.projects
  {
    HasProjectRole(req.roles, {ProjectManager}, project) || req.isSuperAdmin ||
    HasOrgRole(req.roles, {OrganizationAdmin}, h.projects[project].organization)
  }

  /** The dashboard calls a requester a manager exactly when the read-only
    * project mixin grants full (not donor-only) access. */
  lemma IsProjectManagerMeansFullAccess(req: Request, h: Hierarchy, project: int)
    requires Wf(h) && project in h.projects
    ensures IsProjectManager(req, h, project) <==> ReadonlyProjectLevel(req, h, project) == Proceed(false)
  {
  }

  // ------------------------------------------------ get_project_activity

  const AggregationError := "Error occured."

  /** A submission of the last week: its submitter and creation time. */
  datatype Recent = Recent(user: int, created: int)

  datatype Activity = Activity(siteVisits: Value, submissionsLastWeek: nat, activeSupervisors: nat,
                               total: int, pending: int, approved: int, rejected: int, flagged: int)

  /** The instances created since a week ago. */
  function SinceWeekAgo(instances: seq<Recent>, weekAgo: int): (r: seq<Recent>)
    ensures forall x :: x in r <==> x in instances && x.created >= weekAgo
  {
    Where(instances, (x: Recent) => x.created >= weekAgo)
  }

  function Users(xs: seq<Recent>): seq<int>
  {
    Map(xs, (x: Recent) => x.user)
  }

  /** `distinct('user').count()`: the number of different submitters. */
  lemma DistinctUsersCount(recent: seq<Recent>)
    ensures |Distinct(Users(recent))| == |set x | x in recent :: x.user|
  {
    var users := Distinct(Users(recent));
    NoRepeatsCount(users);
    assert (set u | u in users) == (set x | x in recent :: x.user) by {
      forall u ensures u in users <==> u in (set x | x in recent :: x.user) {
        if u in users {
          var k :| 0 <= k < |Users(recent)| && Users(recent)[k] == u;
          assert recent[k] in recent;
        }
        if u in (set x | x in recent :: x.user) {
          var x :| x in recent && x.user == u;
          var k :| 0 <= k < |recent| && recent[k] == x;
          assert Users(recent)[k] == u;
        }
      }
    }
  }

  /** `get_project_activity`. `visits` is the site-visit aggregation: None
    * when it raised, else its result rows, each holding `total_sum`. The
    * four counts come from `get_submissions_count`. */
  function ProjectActivity(visits: Option<seq<int>>, instances: seq<Recent>, weekAgo: int,
                           outstanding: int, flagged: int, approved: int, rejected: int): (r: Activity)
    ensures r.siteVisits == Str(AggregationError) <==> visits.None?
    ensures visits == Some([]) ==> r.siteVisits == Int(0)
    ensures visits.Some? && visits.value != [] ==> r.siteVisits == Int(visits.value[0])
    ensures r.total == outstanding + flagged + approved + rejected
    ensures r.pending == outstanding && r.approved == approved && r.rejected == rejected && r.flagged == flagged
    ensures r.submissionsLastWeek == |SinceWeekAgo(instances, weekAgo)|
    ensures r.activeSupervisors == |set x | x in SinceWeekAgo(instances, weekAgo) :: x.user|
    ensures r.activeSupervisors <= r.submissionsLastWeek
    ensures r.activeSupervisors > 0 <==> r.submissionsLastWeek > 0
  {
    var recent := SinceWeekAgo(instances, weekAgo);
    var users := Distinct(Users(recent));
    DistinctUsersCount(recent);
    assert |users| > 0 <==> |recent| > 0 by {
      if |recent| > 0 {
        assert Users(recent)[0] in Users(recent);
      }
      if |users| > 0 {
        assert users[0] in Users(recent);
      }
    }
    Activity(
      match visits
      case None => Str(AggregationError)
      case Some(rows) => if rows == [] then Int(0) else Int(rows[0]),
      |recent|, |users|,
      outstanding + flagged + approved + rejected, outstanding, approved, rejected, flagged)
  }

  // ------------------------------------- get_form_submissions_chart_data

  /** `form_status` 0 pending, 1 rejected, 2 flagged, 3 approved. */
  datatype StatusCounts = StatusCounts(total: nat, pending: nat, approved: nat, rejected: nat, flagged: nat)

  function WithStatus(k: int): Submission -> bool
  {
    (s: Submission) => s.formStatus == k
  }

  function CountStatus(xs: seq<Submission>, k: int): nat
  {
    |Where(xs, WithStatus(k))|
  }

  /** `LineChartGeneratorProject.get_count`. */
  function CountsThrough(subs: seq<Submission>, t: int): StatusCounts
  {
    var xs := Through(subs, t);
    StatusCounts(|xs|, CountStatus(xs, 0), CountStatus(xs, 3), CountStatus(xs, 1), CountStatus(xs, 2))
  }

  /** With every status among the four, the total is their sum. */
  lemma {:induction false} StatusesAddUp(xs: seq<Submission>)
    requires forall s :: s in xs ==> 0 <= s.formStatus <= 3
    ensures |xs| == CountStatus(xs, 0) + CountStatus(xs, 1) + CountStatus(xs, 2) + CountStatus(xs, 3)
  {
    if xs != [] {
      assert forall s :: s in xs[1..] ==> s in xs;
      StatusesAddUp(xs[1..]);
    }
  }

  /** The sample dates of `LineChartGeneratorProject`: `date_range` from
    * the creation day to today in six intervals. */
  function Samples(created: int, today: int): (r: seq<int>)
    ensures |r| == 7 && r[0] == created && r[6] == today
  {
    DateRangeShape(created, today, 6);
    DateRangeSpec(created, today, 6).value
  }

  function CountsAt(subs: seq<Submission>): int -> StatusCounts
  {
    t => CountsThrough(subs, t)
  }

  /** `LineChartGeneratorProject.data()`. */
  function ProjectChart(created: int, today: int, subs: seq<Submission>, fmt: int -> string): (r: seq<(string, StatusCounts)>)
    ensures |r| <= 7
  {
    ChartOf(Samples(created, today), fmt, CountsAt(subs))
  }

  /** A chart series: one value per dictionary entry, with the keys as
    * labels. */
  datatype Series = Series(data: seq<nat>, labels: seq<string>)

  const SeriesNames := ["total_submissions", "pending_submissions", "approved_submissions",
                        "rejected_submissions", "flagged_submissions"]

  function Field(name: string, c: StatusCounts): nat
  {
    if name == "total_submissions" then c.total
    else if name == "pending_submissions" then c.pending
    else if name == "approved_submissions" then c.approved
    else if name == "rejected_submissions" then c.rejected
    else c.flagged
  }

  /** `get_form_submissions_chart_data`: five series over one label list. */
  function SubmissionsChart(d: seq<(string, StatusCounts)>): (r: seq<(string, Series)>)
    ensures KeysOf(r) == SeriesNames
    ensures forall n :: 0 <= n < |r| ==>
      r[n].1.labels == KeysOf(d) && |r[n].1.data| == |d| &&
      forall i :: 0 <= i < |d| ==> r[n].1.data[i] == Field(r[n].0, d[i].1)
  {
    Map(SeriesNames, (name: string) => (name, Series(Map(d, (e: (string, StatusCounts)) => Field(name, e.1)), KeysOf(d))))
  }

  /** At every label of the project chart the total is the sum of the
    * four status series, provided statuses stay among the four. */
  lemma ChartTotalsAddUp(created: int, today: int, subs: seq<Submission>, fmt: int -> string, i: int)
    requires forall s :: s in subs ==> 0 <= s.formStatus <= 3
    requires 0 <= i < |ProjectChart(created, today, subs, fmt)|
    ensures var r := SubmissionsChart(ProjectChart(created, today, subs, fmt));
      r[0].1.data[i] == r[1].1.data[i] + r[2].1.data[i] + r[3].1.data[i] + r[4].1.data[i]
  {
    var dates := Samples(created, today);
    var d := ProjectChart(created, today, subs, fmt);
    ChartValuesAreSamples(dates, fmt, CountsAt(subs), i);
    var j :| 0 <= j < |dates| && d[i].1 == CountsAt(subs)(dates[j]);
    var xs := Through(subs, dates[j]);
    assert forall s :: s in xs ==> s in subs;
    StatusesAddUp(xs);
    assert d[i].1 == CountsThrough(subs, dates[j]);
    SeriesAddUp(d, i);
  }

  /** Where an entry's total is the sum of its statuses, so are the series
    * at that index. */
  lemma SeriesAddUp(d: seq<(string, StatusCounts)>, i: int)
    requires 0 <= i < |d|
    requires d[i].1.total == d[i].1.pending + d[i].1.approved + d[i].1.rejected + d[i].1.flagged
    ensures var r := SubmissionsChart(d);
      r[0].1.data[i] == r[1].1.data[i] + r[2].1.data[i] + r[3].1.data[i] + r[4].1.data[i]
  {
    var r := SubmissionsChart(d);
    assert KeysOf(r)[0] == r[0].0 && KeysOf(r)[1] == r[1].0 && KeysOf(r)[2] == r[2].0;
    assert KeysOf(r)[3] == r[3].0 && KeysOf(r)[4] == r[4].0;
  }

  // ------------------------------------------------- get_terms_and_labels

  /** A project's ProjectLevelTermsAndLabels row. */
  datatype Terms = Terms(site: string, donor: string, siteSupervisor: string, siteReviewer: string,
                         region: string, regionSupervisor: string, regionReviewer: string)

  const DefaultTerms := Terms("Site", "Donor", "Site Supervisor", "Site Reviewer", "Region",
                              "Region Supervisor", "Region Reviewer")

  const TermKeys := ["site", "donor", "site_supervisor", "site_reviewer", "region",
                     "region_supervisor", "region_reviewer"]

  /** `get_terms_and_labels`: the project's terms, or the defaults when it
    * has none. */
  function TermsAndLabels(terms: Option<Terms>): (r: seq<(string, string)>)
    ensures KeysOf(r) == TermKeys
    ensures terms.None? ==>
      r[0].1 == "Site" && r[1].1 == "Donor" && r[2].1 == "Site Supervisor" && r[3].1 == "Site Reviewer" &&
      r[4].1 == "Region" && r[5].1 == "Region Supervisor" && r[6].1 == "Region Reviewer"
    ensures terms.Some? ==>
      var t := terms.value;
      r[0].1 == t.site && r[1].1 == t.donor && r[2].1 == t.siteSupervisor && r[3].1 == t.siteReviewer &&
      r[4].1 == t.region && r[5].1 == t.regionSupervisor && r[6].1 == t.regionReviewer
  {
    var t := if terms.Some? then terms.value else DefaultTerms;
    [("site", t.site), ("donor", t.donor), ("site_supervisor", t.siteSupervisor), ("site_reviewer", t.siteReviewer),
     ("region", t.region), ("region_supervisor", t.regionSupervisor), ("region_reviewer", t.regionReviewer)]
  }

  /** The default supervisor labels are the role groups' own names; the
    * default reviewer and donor labels are not. */
  lemma DefaultLabelsAndGroups()
    ensures var r := TermsAndLabels(None);
      r[2] == ("site_supervisor", GroupName(SiteSupervisor)) &&
      r[5] == ("region_supervisor", GroupName(RegionSupervisor)) &&
      r[6] == ("region_reviewer", GroupName(RegionReviewer)) &&
      r[3].1 != GroupName(Reviewer) && r[1].1 != GroupName(ProjectDonor)
  {
  }

  // ----------------------------------------------------- get_breadcrumbs

  datatype Breadcrumbs = Breadcrumbs(name: string, organization: string, organizationUrl: string)

  /** `get_breadcrumbs`: the organization link leads to the organization
    * only for its Organization Admins and super admins, otherwise back to
    * the project. */
  function GetBreadcrumbs(req: Request, projectName: string, organization: int, organizationName: string,
                          projectUrl: string, organizationUrl: string): (r: Breadcrumbs)
    ensures r.name == projectName && r.organization == organizationName
    ensures r.organizationUrl == organizationUrl || r.organizationUrl == projectUrl
    ensures HasOrgRole(req.roles, {OrganizationAdmin}, organization) || req.isSuperAdmin ==>
      r.organizationUrl == organizationUrl
    ensures !HasOrgRole(req.roles, {OrganizationAdmin}, organization) && !req.isSuperAdmin ==>
      r.organizationUrl == projectUrl
  {
    Breadcrumbs(projectName, organizationName,
                if HasOrgRole(req.roles, {OrganizationAdmin}, organization) || req.isSuperAdmin
                then organizationUrl else projectUrl)
  }

  /** Whoever the dashboard does not treat as a manager is sent back to the
    * project by the organization link. */
  lemma NonManagerLinksToProject(req: Request, h: Hierarchy, project: int, name: string, orgName: string,
                                 projectUrl: string, orgUrl: string)
    requires project in h.projects && !IsProjectManager(req, h, project)
    ensures GetBreadcrumbs(req, name, h.projects[project].organization, orgName, projectUrl, orgUrl).organizationUrl
      == projectUrl
  {
  }
}
