/** The staff views of staff/viewsets/staffViewset.py: the team-leader
  * permission, the querysets each viewset filters to, and the fields
  * creation stamps from the request. Dates are day numbers. */
module StaffViewset {
  import opened Common

  /** A Team row. */
  datatype Team = Team(id: int, leader: int, isDeleted: bool)

  /** What `TeamAccessPermission` reads: authentication, the requester, the
    * middleware's `request.group`, and the URL's `team_id`. */
  datatype TeamRequest = TeamRequest(authenticated: bool, user: int, group: Option<Group>, teamId: Option<string>)

  /** A non-deleted team with that pk led by `user`. */
  predicate LeadsTeam(teams: seq<Team>, user: int, id: int)
  {
    exists t :: t in teams && !t.isDeleted && t.id == id && t.leader == user
  }

  /** `TeamAccessPermission.has_permission`. `filter(pk=None)` matches no
    * team; a `team_id` that is not a number makes the query raise. */
  function TeamAccess(req: TeamRequest, teams: seq<Team>): (r: Verdict)
    ensures !req.authenticated ==> r == Refuse
    ensures r == Allow <==> (req.authenticated &&
      ((req.group.Some? && req.group.value == SuperAdmin) ||
       (req.teamId.Some? && ParseInt(req.teamId.value).Some? && LeadsTeam(teams, req.user, ParseInt(req.teamId.value).value))))
    ensures r == Fault <==> (req.authenticated && !(req.group.Some? && req.group.value == SuperAdmin) &&
      req.teamId.Some? && ParseInt(req.teamId.value).None?)
    ensures r in {Allow, Refuse, Fault}
  {
    if !req.authenticated then Refuse
    else if req.group.Some? && GroupName(req.group.value) == "Super Admin" then Allow
    else match req.teamId
      case None => Refuse
      case Some(s) =>
        match ParseInt(s)
        case None => Fault
        case Some(n) => if LeadsTeam(teams, req.user, n) then Allow else Refuse
  }

  /** A leader of a deleted team is refused for it; the group test admits
    * no role but Super Admin. */
  lemma DeletedTeamGrantsNothing(req: TeamRequest, n: int)
    requires req.authenticated && req.group != Some(SuperAdmin) && req.teamId == Some(IntToString(n))
    ensures TeamAccess(req, [Team(n, req.user, true)]) == Refuse
  {
    IntToStringParses(n);
  }

  /** `TeamViewSet.filter_queryset`: the non-deleted teams the requester
    * leads. */
  function MyTeams(teams: seq<Team>, user: int): (r: seq<Team>)
    ensures forall t :: t in r <==> t in teams && !t.isDeleted && t.leader == user
  {
    Where(Where(teams, (t: Team) => !t.isDeleted), (t: Team) => t.leader == user)
  }

  /** A Staff row. */
  datatype Staff = Staff(id: int, team: Option<int>, createdBy: int, fields: string, isDeleted: bool)

  /** `StaffViewSet.filter_queryset` (and `StafflistViewSet`'s): the
    * non-deleted staff of the URL's team. A missing `team_id` is
    * `team_id=None`, which matches staff with no team; one that is not a
    * number makes the query raise, and the `except` turns that into an
    * empty list. */
  function TeamStaff(staff: seq<Staff>, teamId: Option<string>): (r: seq<Staff>)
    ensures forall s :: s in r ==> s in staff && !s.isDeleted
    ensures teamId.Some? && ParseInt(teamId.value).None? ==> r == []
    ensures teamId.Some? && ParseInt(teamId.value).Some? ==>
      forall s :: s in r <==> s in staff && !s.isDeleted && s.team == ParseInt(teamId.value)
    ensures teamId.None? ==> forall s :: s in r <==> s in staff && !s.isDeleted && s.team.None?
  {
    var live := Where(staff, (s: Staff) => !s.isDeleted);
    match teamId
    case None => Where(live, (s: Staff) => s.team.None?)
    case Some(v) =>
      match ParseInt(v)
      case None => []
      case Some(n) => Where(live, (s: Staff) => s.team == Some(n))
  }

  /** `StaffUpdateViewSet.filter_queryset`: the non-deleted staff with
    * that pk in that team. A missing `pk` filters on a null primary key,
    * which no row has; a missing `team_id` is `team_id=None`, which
    * matches staff with no team. */
  function StaffToUpdate(staff: seq<Staff>, pk: Option<int>, teamId: Option<int>): (r: seq<Staff>)
    ensures forall s :: s in r <==> s in staff && !s.isDeleted && pk == Some(s.id) && s.team == teamId
    ensures pk.None? ==> r == []
  {
    if pk.None? then []
    else Where(staff, (s: Staff) => !s.isDeleted && s.id == pk.value && s.team == teamId)
  }

  /** `StaffViewSet.perform_create`: `created_by` is the requester and the
    * team the URL's, whatever the client sent. */
  function StampStaff(submitted: Staff, requester: int, teamId: int): (r: Staff)
    ensures r.createdBy == requester && r.team == Some(teamId)
    ensures r.id == submitted.id && r.fields == submitted.fields && r.isDeleted == submitted.isDeleted
  {
    submitted.(createdBy := requester, team := Some(teamId))
  }

  /** So two submissions that differ only in the stamped fields are stored
    * alike. */
  lemma StampOverridesClientValues(a: Staff, b: Staff, requester: int, teamId: int)
    requires a.id == b.id && a.fields == b.fields && a.isDeleted == b.isDeleted
    ensures StampStaff(a, requester, teamId) == StampStaff(b, requester, teamId)
  {
  }

  /** An Attendance row. */
  datatype Attendance = Attendance(id: int, team: Option<int>, submittedBy: int, date: int, staffs: seq<int>, isDeleted: bool)

  /** `AttendanceViewSet.filter_queryset`: the team's non-deleted records
    * dated from seven days before `today` up to `today`, both ends
    * included (`attendance_date__range`). */
  function RecentAttendance(records: seq<Attendance>, teamId: int, today: int): (r: seq<Attendance>)
    ensures forall a :: a in r <==> a in records && !a.isDeleted && a.team == Some(teamId) && today - 7 <= a.date <= today
  {
    var start := today - 7;
    Where(records, (a: Attendance) => !a.isDeleted && a.team == Some(teamId) && start <= a.date && a.date <= today)
  }

  /** The window is eight days long: a week ago and today are in it, the
    * day before and tomorrow are not. */
  lemma AttendanceWindowBounds(a: Attendance, teamId: int, today: int)
    requires !a.isDeleted && a.team == Some(teamId)
    ensures a.date == today - 7 ==> a in RecentAttendance([a], teamId, today)
    ensures a.date == today ==> a in RecentAttendance([a], teamId, today)
    ensures a.date == today - 8 ==> RecentAttendance([a], teamId, today) == []
    ensures a.date == today + 1 ==> RecentAttendance([a], teamId, today) == []
  {
  }

  /** `AttendanceViewSet.perform_create`: `submitted_by` and the team are
    * stamped from the request. */
  function StampAttendance(submitted: Attendance, requester: int, teamId: int): (r: Attendance)
    ensures r.submittedBy == requester && r.team == Some(teamId)
    ensures r.id == submitted.id && r.date == submitted.date && r.staffs == submitted.staffs && r.isDeleted == submitted.isDeleted
  {
    submitted.(submittedBy := requester, team := Some(teamId))
  }
}
