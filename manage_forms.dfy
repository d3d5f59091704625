/** The form management serializers of fv3/serializers/manage_forms.py: the
  * duplicate check for scheduled forms, the schedule level names, the
  * response counts and the annotation getters that default to 0, and the
  * update of a sub-stage that swaps or keeps its form. */
module ManageForms {
  import opened Common

  /** A FieldSightXF row: its XForm, how it is attached (staged, scheduled,
    * to a site or a project, to a stage) and its default status. */
  datatype FormRow = FormRow(xf: int, isStaged: bool, isScheduled: bool, isDeleted: bool,
                             site: Option<int>, project: Option<int>, stage: Option<int>, defaultStatus: int)

  // --------------------------------------------------- ScheduleSerializer

  /** The keys `validate` looks at: a key that is present may still hold
    * None. */
  datatype ScheduleData = ScheduleData(xf: int, site: Option<Option<int>>, project: Option<Option<int>>)

  const DuplicateForm := "Form Already Exists, Duplicate Forms Not Allowed"

  /** A non-staged scheduled form with this XForm at `site` (or, with the
    * project key, in `project`); deleted forms count too. */
  predicate ScheduledDuplicate(forms: seq<FormRow>, xf: int, site: Option<Option<int>>, project: Option<Option<int>>)
  {
    if site.Some? then
      exists f :: f in forms && f.xf == xf && !f.isStaged && f.isScheduled && f.site == site.value
    else if project.Some? then
      exists f :: f in forms && f.xf == xf && !f.isStaged && f.isScheduled && f.project == project.value
    else false
  }

  datatype Validated<T> = Valid(data: T) | ValidationError(message: string)

  /** `ScheduleSerializer.validate`: the site key is checked when present,
    * else the project key; the data is returned unchanged otherwise. */
  function ValidateSchedule(forms: seq<FormRow>, data: ScheduleData): (r: Validated<ScheduleData>)
    ensures r.Valid? ==> r.data == data
    ensures r.ValidationError? ==> r.message == DuplicateForm
    ensures r.ValidationError? <==> ScheduledDuplicate(forms, data.xf, data.site, data.project)
  {
    if data.site.Some? then
      if exists f :: f in forms && f.xf == data.xf && !f.isStaged && f.isScheduled && f.site == data.site.value
      then ValidationError(DuplicateForm) else Valid(data)
    else if data.project.Some? then
      if exists f :: f in forms && f.xf == data.xf && !f.isStaged && f.isScheduled && f.project == data.project.value
      then ValidationError(DuplicateForm) else Valid(data)
    else Valid(data)
  }

  /** Once a scheduled form is accepted and added at a site, the same XForm
    * is refused there, even after that form is deleted. */
  lemma SecondScheduleRefused(forms: seq<FormRow>, xf: int, site: int, added: FormRow)
    requires added.xf == xf && !added.isStaged && added.isScheduled && added.site == Some(site)
    ensures ValidateSchedule(forms + [added], ScheduleData(xf, Some(Some(site)), None)).ValidationError?
    ensures ValidateSchedule(forms + [added.(isDeleted := true)], ScheduleData(xf, Some(Some(site)), None)).ValidationError?
  {
    assert added in forms + [added];
    assert added.(isDeleted := true) in forms + [added.(isDeleted := true)];
  }

  /** A site key that is present takes precedence: the project is not
    * looked at, so a duplicate in the project alone does not refuse. */
  lemma SiteKeyHidesProjectDuplicate(forms: seq<FormRow>, xf: int, project: int)
    requires forall f :: f in forms ==> f.site.Some?
    ensures ValidateSchedule(forms, ScheduleData(xf, Some(None), Some(Some(project)))).Valid?
  {
  }

  /** `get_schedule_level_type`. */
  function ScheduleLevelType(level: Option<int>): (r: string)
    ensures r == "Monthly" <==> level == Some(2)
    ensures r == "Weekly" <==> level == Some(1)
    ensures r == "Daily" <==> level != Some(1) && level != Some(2)
  {
    if level == Some(2) then "Monthly"
    else if level == Some(1) then "Weekly"
    else "Daily"
  }

  /** The level id a name stands for; Daily is level 0. */
  function LevelOfType(name: string): int
  {
    if name == "Monthly" then 2 else if name == "Weekly" then 1 else 0
  }

  /** The names tell the levels 0, 1 and 2 apart. */
  lemma LevelTypeRoundTrip(level: int)
    requires 0 <= level <= 2
    ensures LevelOfType(ScheduleLevelType(Some(level))) == level
  {
  }

  // ----------------------------------------------------- response counts

  /** An annotation read with `hasattr`: its value, or 0 when absent. */
  function OrZero(annotation: Option<nat>): (r: nat)
    ensures annotation.None? ==> r == 0
    ensures annotation.Some? ==> r == annotation.value
  {
    if annotation.Some? then annotation.value else 0
  }

  /** `get_responses_count` of GeneralFormSerializer and ScheduleSerializer:
    * the project count in a project context or for a project form, the
    * site count for a site form, and None (the method falls off its end)
    * for a form attached to neither. */
  function FormResponses(projectContext: bool, project: Option<int>, site: Option<int>,
                         responseCount: Option<nat>, siteResponseCount: Option<nat>): (r: Option<nat>)
    ensures r.None? <==> !projectContext && project.None? && site.None?
    ensures projectContext || project.Some? ==> r == Some(OrZero(responseCount))
    ensures !projectContext && project.None? && site.Some? ==> r == Some(OrZero(siteResponseCount))
  {
    if projectContext then Some(OrZero(responseCount))
    else if project.Some? then Some(OrZero(responseCount))
    else if site.Some? then Some(OrZero(siteResponseCount))
    else None
  }

  /** `GeneralProjectFormSerializer.get_responses_count`: the annotation in
    * a project context, else 0. */
  function ProjectFormResponses(projectContext: bool, responsesCount: Option<nat>): (r: nat)
    ensures !projectContext || responsesCount.None? ==> r == 0
  {
    if projectContext then OrZero(responsesCount) else 0
  }

  /** In a project context the two serializers report the same count. */
  lemma ProjectContextCountsAgree(project: Option<int>, site: Option<int>, count: Option<nat>, siteCount: Option<nat>)
    ensures FormResponses(true, project, site, count, siteCount) == Some(ProjectFormResponses(true, count))
  {
  }

  /** `StageSerializer.get_sub_stage_weight`. */
  function SubStageWeight(annotation: Option<nat>): (r: nat)
    ensures annotation.None? ==> r == 0
  {
    OrZero(annotation)
  }

  /** A submission: the project-level form or the site-level form it was
    * made with, and its site. */
  datatype FormInstance = FormInstance(projectForm: Option<int>, siteForm: Option<int>, site: Option<int>)

  function CountWhere(xs: seq<FormInstance>, keep: FormInstance -> bool): nat
  {
    |Where(xs, keep)|
  }

  /** The site `get_responses_count` narrows to: the `pk` parameter, when
    * `is_project` is "0". */
  function SiteFilter(isProject: Option<string>, pk: Option<string>): (r: Option<string>)
    ensures r.Some? <==> isProject == Some("0") && Given(pk)
  {
    if Given(isProject) && isProject.value == "0" && Given(pk) then pk else None
  }

  /** `SubStageSerializer.get_responses_count` for the stage's form `form`
    * (row `id`), or None when the stage has no form: 0 without a form;
    * for a project form, its submissions, at the `pk` site only when
    * `is_project` is "0"; for a site form, its site submissions. An
    * outer None is the ValueError of a site key that is not a number. */
  function SubStageResponses(isProject: Option<string>, pk: Option<string>, form: Option<(int, FormRow)>,
                             instances: seq<FormInstance>): (r: Option<nat>)
    ensures form.None? ==> r == Some(0)
    ensures form.Some? && form.value.1.site.Some? ==>
      r == Some(CountWhere(instances, (x: FormInstance) => x.siteForm == Some(form.value.0)))
    ensures form.Some? && form.value.1.site.None? && SiteFilter(isProject, pk).None? ==>
      r == Some(CountWhere(instances, (x: FormInstance) => x.projectForm == Some(form.value.0)))
    ensures r.Some? && form.Some? && form.value.1.site.None? ==>
      r.value <= CountWhere(instances, (x: FormInstance) => x.projectForm == Some(form.value.0))
  {
    if form.None? then Some(0)
    else
      var (id, f) := form.value;
      if f.site.None? then
        var all := Where(instances, (x: FormInstance) => x.projectForm == Some(id));
        match SiteFilter(isProject, pk)
        case None => Some(|all|)
        case Some(s) =>
          match ParseInt(s)
          case None => None
          case Some(site) =>
            var here := Where(instances, (x: FormInstance) => x.projectForm == Some(id) && x.site == Some(site));
            WhereNarrows(instances, id, site);
            Some(|here|)
      else Some(CountWhere(instances, (x: FormInstance) => x.siteForm == Some(id)))
  }

  /** Narrowing to a site counts no more submissions. */
  lemma {:induction false} WhereNarrows(xs: seq<FormInstance>, id: int, site: int)
    ensures |Where(xs, (x: FormInstance) => x.projectForm == Some(id) && x.site == Some(site))|
         <= |Where(xs, (x: FormInstance) => x.projectForm == Some(id))|
  {
    if xs != [] {
      WhereNarrows(xs[1..], id, site);
    }
  }

  // ------------------------------------------------ SubStageSerializer.update

  /** The FieldSightXF table. Each stage has at most one form. */
  class FormTable {
    var forms: map<int, FormRow>
    var nextId: int

    predicate Valid()
      reads this
    {
      (forall k :: k in forms ==> k < nextId) &&
      (forall a, b :: a in forms && b in forms && forms[a].stage.Some? && forms[a].stage == forms[b].stage ==> a == b)
    }

    constructor(forms0: map<int, FormRow>, nextId0: int)
      requires forall k :: k in forms0 ==> k < nextId0
      requires forall a, b :: a in forms0 && b in forms0 && forms0[a].stage.Some? && forms0[a].stage == forms0[b].stage ==> a == b
      ensures Valid() && forms == forms0 && nextId == nextId0
    {
      forms := forms0;
      nextId := nextId0;
    }

    /** `SubStageSerializer.update` after the XForm lookup: no form change
      * without an XForm; with the stage's current XForm only the default
      * status is updated; with another one, the old form is deleted and
      * detached and a new staged form is created at the parent stage's
      * site and project. */
    method UpdateSubStage(stage: int, parentSite: Option<int>, parentProject: Option<int>,
                          xform: Option<int>, status: int)
      requires Valid()
      modifies this
      ensures Valid()
      ensures xform.None? ==> forms == old(forms) && nextId == old(nextId)
      ensures xform.Some? ==> forms == Swapped(old(forms), old(nextId), stage, parentSite, parentProject, xform.value, status)
      ensures xform.Some? && StageForm(old(forms), stage).Some? && old(forms)[StageForm(old(forms), stage).value].xf == xform.value ==>
        nextId == old(nextId)
    {
      if xform.None? {
        return;
      }
      ghost var target := Swapped(forms, nextId, stage, parentSite, parentProject, xform.value, status);
      SwapKeepsOneFormPerStage(forms, nextId, stage, parentSite, parentProject, xform.value, status);
      var attached: Option<int> := None;
      if k :| k in forms && forms[k].stage == Some(stage) {
        StageFormIs(forms, stage, k);
        attached := Some(k);
      }
      var newForm := FormRow(xform.value, true, false, false, parentSite, parentProject, Some(stage), status);
      if attached.Some? {
        var current := forms[attached.value];
        if current.xf == xform.value {
          forms := forms[attached.value := current.(defaultStatus := status)];
          assert forms == target;
          return;
        }
        forms := forms[attached.value := current.(isDeleted := true, stage := None)];
      }
      forms := forms[nextId := newForm];
      assert forms == target;
      nextId := nextId + 1;
    }
  }

  /** `stage.stage_forms`: the form attached to the stage, if any. */
  ghost function StageForm(forms: map<int, FormRow>, stage: int): (r: Option<int>)
    ensures r.Some? ==> r.value in forms && forms[r.value].stage == Some(stage)
    ensures r.None? ==> forall k :: k in forms ==> forms[k].stage != Some(stage)
  {
    if exists k :: k in forms && forms[k].stage == Some(stage) then
      var k :| k in forms && forms[k].stage == Some(stage);
      Some(k)
    else None
  }

  /** With one form per stage, the attached form is the one holding the
    * stage. */
  lemma StageFormIs(forms: map<int, FormRow>, stage: int, k: int)
    requires forall a, b :: a in forms && b in forms && forms[a].stage.Some? && forms[a].stage == forms[b].stage ==> a == b
    requires k in forms && forms[k].stage == Some(stage)
    ensures StageForm(forms, stage) == Some(k)
  {
  }

  /** The forms after the update with an XForm. */
  ghost function Swapped(forms: map<int, FormRow>, nextId: int, stage: int, parentSite: Option<int>, parentProject: Option<int>,
                   xform: int, status: int): map<int, FormRow>
  {
    var newForm := FormRow(xform, true, false, false, parentSite, parentProject, Some(stage), status);
    match StageForm(forms, stage)
    case Some(k) =>
      if forms[k].xf == xform then forms[k := forms[k].(defaultStatus := status)]
      else forms[k := forms[k].(isDeleted := true, stage := None)][nextId := newForm]
    case None => forms[nextId := newForm]
  }

  /** After the update the stage holds exactly one form, of the chosen
    * XForm and status; a replaced form is kept, deleted and detached; no
    * other form changes. */
  lemma SwapKeepsOneFormPerStage(forms: map<int, FormRow>, nextId: int, stage: int, parentSite: Option<int>,
                                 parentProject: Option<int>, xform: int, status: int)
    requires forall k :: k in forms ==> k < nextId
    requires forall a, b :: a in forms && b in forms && forms[a].stage.Some? && forms[a].stage == forms[b].stage ==> a == b
    ensures var r := Swapped(forms, nextId, stage, parentSite, parentProject, xform, status);
      (forall a, b :: a in r && b in r && r[a].stage.Some? && r[a].stage == r[b].stage ==> a == b) &&
      StageForm(r, stage).Some? && r[StageForm(r, stage).value].xf == xform &&
      r[StageForm(r, stage).value].defaultStatus == status &&
      (forall k :: k in forms && forms[k].stage != Some(stage) ==> k in r && r[k] == forms[k]) &&
      (forall k :: k in forms && forms[k].stage == Some(stage) && forms[k].xf != xform ==>
         k in r && r[k].isDeleted && r[k].stage.None?)
  {
    var r := Swapped(forms, nextId, stage, parentSite, parentProject, xform, status);
    var key := if StageForm(forms, stage).Some? && forms[StageForm(forms, stage).value].xf == xform
               then StageForm(forms, stage).value else nextId;
    assert key in r && r[key].stage == Some(stage);
    StageFormIs(r, stage, key);
  }
}
