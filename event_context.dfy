/** The `events` template context of eventlog/context_processors.py: the
  * unseen notifications a user's group may see, the organization, project
  * and site ids the page subscribes to, and the websocket address. */
module EventContext {
  import opened Common

  /** A FieldSightLog row as the context reads it. */
  datatype LogRow = LogRow(id: int, organization: Option<int>, isSeen: bool)

  /** What the request carries: whether the user is anonymous, the inbox
    * of a signed-in user, the current group's name, and the organization,
    * project and site chosen by the role middleware. */
  datatype EventRequest<M> = EventRequest(anonymous: bool, inbox: seq<M>, group: Option<string>,
                                          organization: Option<int>, project: Option<int>, site: Option<int>)

  /** The template context. */
  datatype Events<M> = Events(notifications: seq<LogRow>, messages: seq<M>, oid: Option<int>,
                              pid: int, sid: int, channelsUrl: string, siteName: string)

  /** `qs[:10]`. */
  function FirstTen(xs: seq<LogRow>): (r: seq<LogRow>)
    ensures |r| <= 10 && r <= xs
    ensures |xs| <= 10 ==> r == xs
  {
    if |xs| <= 10 then xs else xs[..10]
  }

  /** The unseen logs; with `Some(o)`, only those of organization `o`
    * (`Some(None)` is the IS NULL filter). */
  function Unseen(logs: seq<LogRow>, organization: Option<Option<int>>): (r: seq<LogRow>)
    ensures forall l :: l in r <==> l in logs && !l.isSeen && (organization.Some? ==> l.organization == organization.value)
  {
    match organization
    case None => Where(logs, (l: LogRow) => !l.isSeen)
    case Some(o) => Where(logs, (l: LogRow) => l.organization == o && !l.isSeen)
  }

  /** `channels_url`: the websocket address, with ':' and the port when a
    * port is set, and a trailing '/'. */
  function ChannelsUrl(url: string, port: Option<string>): (r: string)
    ensures |r| > |url| && r[..|url|] == url && r[|r| - 1] == '/'
    ensures Given(port) ==> r[|url|..] == ":" + port.value + "/"
    ensures !Given(port) ==> |r| == |url| + 1
  {
    if Given(port) then url + ":" + port.value + "/" else url + "/"
  }

  /** `events(request)`: None is the AttributeError of an Organization
    * Admin without an organization, or of a database with no Site. */
  function EventsFor<M>(req: EventRequest<M>, logs: seq<LogRow>, url: string, port: Option<string>,
                        siteDomain: Option<string>): (r: Option<Events<M>>)
    ensures r.None? <==> siteDomain.None? || (req.group == Some("Organization Admin") && req.organization.None?)
    ensures r.Some? ==> (req.anonymous ==> r.value.messages == []) && (!req.anonymous ==> r.value.messages == req.inbox)
    ensures r.Some? ==> r.value.channelsUrl == ChannelsUrl(url, port) && r.value.siteName == siteDomain.value
  {
    if siteDomain.None? || (req.group == Some("Organization Admin") && req.organization.None?) then None
    else
      var messages := if req.anonymous then [] else req.inbox;
      var (notifications, oid, pid, sid) :=
        if req.group.None? then ([], None, 0, 0)
        else if req.group.value == "Super Admin" then (FirstTen(Unseen(logs, None)), Some(0), 0, 0)
        else if req.group.value == "Organization Admin" then
          (FirstTen(Unseen(logs, Some(req.organization))), Some(req.organization.value), 0, 0)
        else if req.group.value == "Project Manager" then
          (FirstTen(Unseen(logs, Some(req.organization))), Some(0),
           if req.project.Some? then req.project.value else 0, 0)
        else if req.group.value in ["Reviewer", "Site Supervisor"] then
          (FirstTen(Unseen(logs, Some(req.organization))), Some(0), 0,
           if req.site.Some? then req.site.value else 0)
        else ([], Some(0), 0, 0);
      Some(Events(notifications, messages, oid, pid, sid, ChannelsUrl(url, port), siteDomain.value))
  }

  /** The groups whose branch fetches logs. */
  predicate SeesLogs(group: Option<string>)
  {
    group.Some? && group.value in ["Super Admin", "Organization Admin", "Project Manager", "Reviewer", "Site Supervisor"]
  }

  /** The notifications are the first ten unseen logs, of the request's
    * organization unless the group is Super Admin: at most ten, all
    * unseen; none without a group or for a group outside the four. */
  lemma NotificationsBounded<M>(req: EventRequest<M>, logs: seq<LogRow>, url: string, port: Option<string>, domain: string)
    requires EventsFor(req, logs, url, port, Some(domain)).Some?
    ensures var e := EventsFor(req, logs, url, port, Some(domain)).value;
      |e.notifications| <= 10 &&
      (forall l :: l in e.notifications ==> l in logs && !l.isSeen) &&
      (req.group != Some("Super Admin") ==> forall l :: l in e.notifications ==> l.organization == req.organization) &&
      (!SeesLogs(req.group) ==> e.notifications == []) &&
      (req.group == Some("Super Admin") ==> e.notifications == FirstTen(Unseen(logs, None))) &&
      (SeesLogs(req.group) && req.group != Some("Super Admin") ==>
         e.notifications == FirstTen(Unseen(logs, Some(req.organization))))
  {
    var e := EventsFor(req, logs, url, port, Some(domain)).value;
    forall l | l in e.notifications ensures l in logs && !l.isSeen && (req.group != Some("Super Admin") ==> l.organization == req.organization) {
      var all := if req.group == Some("Super Admin") then Unseen(logs, None) else Unseen(logs, Some(req.organization));
      assert e.notifications <= all;
    }
  }

  /** The ids: no group gives oid None; Super Admin oid 0; an Organization
    * Admin the organization's id; a Project Manager the project's id, or 0
    * without a project; a Reviewer or Site Supervisor the site's id, or 0
    * without a site; every other id stays 0. */
  lemma SubscriptionIds<M>(req: EventRequest<M>, logs: seq<LogRow>, url: string, port: Option<string>, domain: string)
    requires EventsFor(req, logs, url, port, Some(domain)).Some?
    ensures var e := EventsFor(req, logs, url, port, Some(domain)).value;
      (e.oid.None? <==> req.group.None?) &&
      (req.group == Some("Organization Admin") ==> e.oid == req.organization) &&
      (req.group != Some("Organization Admin") && req.group.Some? ==> e.oid == Some(0)) &&
      (e.pid != 0 ==> req.group == Some("Project Manager") && req.project == Some(e.pid)) &&
      (req.group == Some("Project Manager") && req.project.Some? ==> e.pid == req.project.value) &&
      (e.sid != 0 ==> req.group.Some? && req.group.value in ["Reviewer", "Site Supervisor"] && req.site == Some(e.sid)) &&
      (req.group.Some? && req.group.value in ["Reviewer", "Site Supervisor"] && req.site.Some? ==> e.sid == req.site.value)
  {
  }

  /** The notifications are the first ten matching logs in table order:
    * with more than ten, exactly ten are shown. */
  lemma TenOfMany<M>(req: EventRequest<M>, logs: seq<LogRow>, url: string, port: Option<string>, domain: string)
    requires req.group == Some("Super Admin")
    requires |Unseen(logs, None)| > 10
    ensures EventsFor(req, logs, url, port, Some(domain)).Some?
    ensures EventsFor(req, logs, url, port, Some(domain)).value.notifications == Unseen(logs, None)[..10]
  {
  }
}
