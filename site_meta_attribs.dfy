/** The site meta-attribute answers of fieldsight/utils/siteMetaAttribs.py:
  * the search of a submission for a question's answer, the answers drawn
  * from forms, the recursive walk that collects a site's answers through
  * linked sites of other projects, and the in-place update of a site's two
  * answer dictionaries. The database is passed in as plain data. */
module SiteMetaAttribs {
  import opened Common
  import opened JsonValues

  // ------------------------------------------------- find_answer_from_dict

  /** The entries of the dictionary the search descends into: the first
    * value, in iteration order, that is a non-empty list headed by a
    * dictionary. */
  function Nested(sub: seq<(string, Value)>): (r: Option<seq<(string, Value)>>)
    ensures r.Some? ==> exists i :: (0 <= i < |sub| && sub[i].1.List? && |sub[i].1.items| > 0 &&
      sub[i].1.items[0] == Dict(r.value))
  {
    if sub == [] then None
    else
      var v := sub[0].1;
      if v.List? && |v.items| > 0 && v.items[0].Dict? then Some(v.items[0].entries)
      else
        var r := Nested(sub[1..]);
        assert r.Some? ==> exists i :: (0 <= i < |sub| && sub[i].1.List? && |sub[i].1.items| > 0 &&
          sub[i].1.items[0] == Dict(r.value)) by {
          if r.Some? {
            var i :| 0 <= i < |sub[1..]| && sub[1..][i].1.List? && |sub[1..][i].1.items| > 0 &&
              sub[1..][i].1.items[0] == Dict(r.value);
            assert sub[i + 1] == sub[1..][i];
          }
        }
        r
  }

  /** The nested dictionary is structurally inside the one it came from. */
  lemma NestedIsSmaller(sub: seq<(string, Value)>)
    requires Nested(sub).Some?
    ensures Dict(Nested(sub).value) < Dict(sub)
  {
    var i :| 0 <= i < |sub| && sub[i].1.List? && |sub[i].1.items| > 0 && sub[i].1.items[0] == Dict(Nested(sub).value);
    assert sub[i] in sub;
    assert sub[i].1.items[0] in sub[i].1.items;
  }

  /** `sub_answers.get(question_name, '')`. */
  function Direct(sub: seq<(string, Value)>, q: string): Value
  {
    GetOr(sub, q, Str(""))
  }

  /** `find_answer_from_dict`: the direct answer when it is truthy, else the
    * search of the first nested dictionary, else the falsy direct answer. */
  function FindAnswer(sub: seq<(string, Value)>, q: string): (r: Value)
    ensures PyTruthy(Direct(sub, q)) ==> r == Direct(sub, q)
    ensures Nested(sub).None? ==> r == Direct(sub, q)
    decreases Dict(sub)
  {
    var answer := Direct(sub, q);
    if !PyTruthy(answer) && Nested(sub).Some? then
      NestedIsSmaller(sub);
      FindAnswer(Nested(sub).value, q)
    else answer
  }

  /** The chain of dictionaries the search may visit, whatever the
    * question: the submission, its first nested dictionary, and so on. */
  function Descent(sub: seq<(string, Value)>): (r: seq<seq<(string, Value)>>)
    ensures |r| >= 1 && r[0] == sub
    decreases Dict(sub)
  {
    if Nested(sub).Some? then
      NestedIsSmaller(sub);
      [sub] + Descent(Nested(sub).value)
    else [sub]
  }

  /** The answer is the one of the first dictionary on the chain that
    * answers the question truthily. */
  lemma {:induction false} FindAnswerIsFirstTruthy(sub: seq<(string, Value)>, q: string, k: nat)
    requires k < |Descent(sub)| && PyTruthy(Direct(Descent(sub)[k], q))
    requires forall j :: 0 <= j < k ==> !PyTruthy(Direct(Descent(sub)[j], q))
    ensures FindAnswer(sub, q) == Direct(Descent(sub)[k], q)
    decreases Dict(sub)
  {
    if k > 0 {
      assert !PyTruthy(Direct(sub, q));
      assert Nested(sub).Some?;
      NestedIsSmaller(sub);
      var d := Descent(sub);
      assert d[1..] == Descent(Nested(sub).value);
      forall j | 0 <= j < k - 1 ensures !PyTruthy(Direct(Descent(Nested(sub).value)[j], q)) {
        assert d[j + 1] == Descent(Nested(sub).value)[j];
      }
      FindAnswerIsFirstTruthy(Nested(sub).value, q, k - 1);
    }
  }

  /** When no dictionary on the chain answers truthily, the answer is the
    * falsy direct answer of the last one. */
  lemma {:induction false} FindAnswerFalsy(sub: seq<(string, Value)>, q: string)
    requires forall j :: 0 <= j < |Descent(sub)| ==> !PyTruthy(Direct(Descent(sub)[j], q))
    ensures FindAnswer(sub, q) == Direct(Descent(sub)[|Descent(sub)| - 1], q)
    ensures !PyTruthy(FindAnswer(sub, q))
    decreases Dict(sub)
  {
    var d := Descent(sub);
    assert !PyTruthy(Direct(d[0], q));
    if Nested(sub).Some? {
      NestedIsSmaller(sub);
      var e := Descent(Nested(sub).value);
      assert d == [sub] + e;
      forall j | 0 <= j < |e| ensures !PyTruthy(Direct(e[j], q)) {
        assert d[j + 1] == e[j];
      }
      FindAnswerFalsy(Nested(sub).value, q);
    }
  }

  /** A question that no dictionary on the chain holds is answered ''. */
  lemma MissingQuestionAnswersEmpty(sub: seq<(string, Value)>, q: string)
    requires forall j :: 0 <= j < |Descent(sub)| ==> !HasKey(Descent(sub)[j], q)
    ensures FindAnswer(sub, q) == Str("")
  {
    FindAnswerFalsy(sub, q);
  }

  // ------------------------------------------------------- form answers

  /** The `question` object of a meta. */
  datatype Question = Question(name: string, qtype: string)

  /** A site meta attribute as the project defines it. `metas`, for a Link,
    * maps a project id (as a string) to the metas to show of a site of
    * that project. */
  datatype Meta = Meta(questionName: string, questionType: string, formId: Option<string>,
                       question: Option<Question>, projectId: Option<int>,
                       metas: Option<seq<(string, seq<Meta>)>>)

  /** A Site row: what the walk reads of it. */
  datatype SiteRow = SiteRow(id: int, identifier: Option<string>, project: int,
                             metaAns: seq<(string, Value)>, allMaAns: seq<(string, Value)>)

  /** The database as these functions read it: the owner's username of
    * each FieldSightXF, the JSON of the latest submission of a form at a
    * site, the date line of that submission, the submission counts, and
    * the sites in table order. */
  datatype Db = Db(formOwner: map<int, string>, latest: map<(int, int), seq<(string, Value)>>,
                   lastDate: map<(int, int), string>, counts: map<(int, int), nat>, sites: seq<SiteRow>)

  const AttachmentPrefix := "http://app.fieldsight.org/attachment/medium?media_file="

  /** `int(meta.get('form_id', "0"))`; None is the ValueError. */
  function FormKey(m: Meta): Option<int>
  {
    ParseInt(if m.formId.Some? then m.formId.value else "0")
  }

  /** `get_form_answer`; None is an exception (a form id that is not a
    * number, a meta without a question, a media answer that is not a
    * string). */
  function FormAnswer(db: Db, siteId: int, m: Meta): (r: Option<Value>)
    ensures FormKey(m).Some? && FormKey(m).value !in db.formOwner ==> r == Some(Str(""))
    ensures FormKey(m).Some? && FormKey(m).value in db.formOwner && (FormKey(m).value, siteId) !in db.latest ==>
      r == Some(Str(""))
    ensures r.Some? && m.question.Some? && m.question.value.qtype == "repeat" ==> r == Some(Str(""))
    ensures r.Some? && r.value != Str("") ==>
      && FormKey(m).Some? && FormKey(m).value in db.formOwner && (FormKey(m).value, siteId) in db.latest
      && m.question.Some?
      && var found := FindAnswer(db.latest[(FormKey(m).value, siteId)], m.question.value.name);
         if m.question.value.qtype in ["photo", "video", "audio"] then
           found.Str? && r.value == Str(AttachmentPrefix + db.formOwner[FormKey(m).value] + "/attachments/" + found.s)
         else r.value == found
    // an existing form with a submission at the site: a missing question
    // raises, otherwise a non-repeat question gives the answer found in the
    // latest submission, a non-empty media answer as its attachment address
    ensures FormKey(m).Some? && FormKey(m).value in db.formOwner && (FormKey(m).value, siteId) in db.latest ==>
      && (m.question.None? ==> r.None?)
      && (m.question.Some? && m.question.value.qtype != "repeat" ==>
            var found := FindAnswer(db.latest[(FormKey(m).value, siteId)], m.question.value.name);
            var media := m.question.value.qtype in ["photo", "video", "audio"] && found != Str("");
            && (media && found.Str? ==>
                  r == Some(Str(AttachmentPrefix + db.formOwner[FormKey(m).value] + "/attachments/" + found.s)))
            && (media && !found.Str? ==> r.None?)
            && (!media ==> r == Some(found)))
  {
    match FormKey(m)
    case None => None
    case Some(pk) =>
      if pk !in db.formOwner || (pk, siteId) !in db.latest then Some(Str(""))
      else if m.question.None? then None
      else if m.question.value.qtype == "repeat" then Some(Str(""))
      else
        var answer := FindAnswer(db.latest[(pk, siteId)], m.question.value.name);
        if m.question.value.qtype in ["photo", "video", "audio"] && answer != Str("") then
          if answer.Str? then Some(Str(AttachmentPrefix + db.formOwner[pk] + "/attachments/" + answer.s))
          else None
        else Some(answer)
  }

  /** `get_form_sub_status`: the date line of the latest submission, or ''. */
  function FormSubStatus(db: Db, siteId: int, m: Meta): (r: Option<Value>)
    ensures r.None? <==> FormKey(m).None?
    ensures r.Some? && r.value != Str("") ==>
      FormKey(m).value in db.formOwner && (FormKey(m).value, siteId) in db.lastDate
    // a known form with a submission at the site gives the date line
    ensures FormKey(m).Some? && FormKey(m).value in db.formOwner && (FormKey(m).value, siteId) in db.lastDate ==>
      r == Some(Str("Last submitted on " + db.lastDate[(FormKey(m).value, siteId)]))
  {
    match FormKey(m)
    case None => None
    case Some(pk) =>
      if pk in db.formOwner && (pk, siteId) in db.lastDate then Some(Str("Last submitted on " + db.lastDate[(pk, siteId)]))
      else Some(Str(""))
  }

  /** `get_form_ques_ans_status`: "Answered" when the latest submission
    * answers the question truthily at its top level, else ''. */
  function FormQuestionAnswered(db: Db, siteId: int, m: Meta): (r: Option<Value>)
    ensures r == Some(Str("Answered")) <==>
      FormKey(m).Some? && FormKey(m).value in db.formOwner && (FormKey(m).value, siteId) in db.latest &&
      m.question.Some? && PyTruthy(GetOr(db.latest[(FormKey(m).value, siteId)], m.question.value.name, Null))
  {
    match FormKey(m)
    case None => None
    case Some(pk) =>
      if pk !in db.formOwner || (pk, siteId) !in db.latest then Some(Str(""))
      else if m.question.None? then None
      else if PyTruthy(GetOr(db.latest[(pk, siteId)], m.question.value.name, Null)) then Some(Str("Answered"))
      else Some(Str(""))
  }

  /** `get_form_submission_count`: the number of submissions, or '' when
    * the form does not exist. */
  function FormSubmissionCount(db: Db, siteId: int, m: Meta): (r: Option<Value>)
    ensures r.None? <==> FormKey(m).None?
    ensures r.Some? ==> (r.value.Int? <==> FormKey(m).value in db.formOwner)
    ensures r.Some? && r.value.Int? ==> r.value.i >= 0
  {
    match FormKey(m)
    case None => None
    case Some(pk) =>
      if pk in db.formOwner then Some(Int(if (pk, siteId) in db.counts then db.counts[(pk, siteId)] else 0))
      else Some(Str(""))
  }

  // ------------------------------------------------------- generate_ans

  /** What the walk is run for: the site whose form answers are read (the
    * same at every depth), its project (links back to it are skipped), and
    * whether linked sites contribute their `all_ma_ans` (`get_meta_ans`) or
    * their `site_meta_attributes_ans` (`get_site_meta_ans`). */
  datatype Walk = Walk(siteId: int, mainProject: int, useAll: bool)

  /** What one meta contributes: nothing, an answer under its name, or an
    * exception. */
  datatype StepOut = Skip | SetAnswer(name: string, answer: Value) | Fail

  /** `Site.objects.filter(identifier=v, project_id=p)`, first row. A
    * missing answer filters on a null identifier. */
  function ReferencedSite(sites: seq<SiteRow>, v: Option<Value>, p: Option<int>): (r: Option<SiteRow>)
    ensures r.Some? ==> r.value in sites && Some(r.value.project) == p
  {
    if sites == [] then None
    else
      var s := sites[0];
      var idMatch :=
        match v
        case None => s.identifier.None?
        case Some(Null) => s.identifier.None?
        case Some(Str(x)) => s.identifier == Some(x)
        case Some(Int(i)) => s.identifier == Some(IntToString(i))
        case Some(_) => false;
      if idMatch && Some(s.project) == p then Some(s) else ReferencedSite(sites[1..], v, p)
  }

  /** The meta selection in force at a Link: the parent's when non-empty,
    * else the link's own. */
  function Selected(m: Meta, parentSel: Option<seq<(string, seq<Meta>)>>): Option<seq<(string, seq<Meta>)>>
  {
    if parentSel.Some? && parentSel.value != [] then parentSel else m.metas
  }

  /** A meta that is not a Link: the form-derived answers by type, or the
    * stored answer (default ''). */
  function PlainStep(db: Db, w: Walk, m: Meta, answers: seq<(string, Value)>): (r: StepOut)
    ensures r != Skip
    ensures r.SetAnswer? ==> r.name == m.questionName
    ensures m.questionType !in ["Form", "FormSubStat", "FormQuestionAnswerStatus", "FormSubCountQuestion"] ==>
      r == SetAnswer(m.questionName, GetOr(answers, m.questionName, Str("")))
  {
    var a :=
      if m.questionType == "Form" then FormAnswer(db, w.siteId, m)
      else if m.questionType == "FormSubStat" then FormSubStatus(db, w.siteId, m)
      else if m.questionType == "FormQuestionAnswerStatus" then FormQuestionAnswered(db, w.siteId, m)
      else if m.questionType == "FormSubCountQuestion" then FormSubmissionCount(db, w.siteId, m)
      else Some(GetOr(answers, m.questionName, Str("")));
    if a.None? then Fail else SetAnswer(m.questionName, a.value)
  }

  /** One meta of the loop of `generate_ans`. A Link to the main project is
    * skipped; a Link to a site found in a selected project contributes
    * `{"children": …, "answer": …}` from that site's own metas; any other
    * Link contributes 'No site referenced'. `fuel` bounds the depth of
    * links followed; running out is the interpreter's recursion limit. */
  function Step(db: Db, w: Walk, m: Meta, answers: seq<(string, Value)>,
                parentSel: Option<seq<(string, seq<Meta>)>>, fuel: nat): (r: StepOut)
    ensures m.questionType == "Link" && m.projectId == Some(w.mainProject) ==> r == Skip
    ensures m.questionType != "Link" ==> r == PlainStep(db, w, m, answers)
    ensures r.SetAnswer? ==> r.name == m.questionName
    decreases fuel, 0
  {
    if m.questionType != "Link" then PlainStep(db, w, m, answers)
    else
      var selected := Selected(m, parentSel);
      if m.projectId == Some(w.mainProject) then Skip
      else
        var v := Get(answers, m.questionName);
        var site := ReferencedSite(db.sites, v, m.projectId);
        if site.None? then SetAnswer(m.questionName, Str("No site referenced"))
        else if selected.None? then Fail
        else
          var key := IntToString(site.value.project);
          if !HasKey(selected.value, key) then SetAnswer(m.questionName, Str("No site referenced"))
          else if fuel == 0 then Fail
          else
            var children := Fold(db, w, Get(selected.value, key).value, [],
                                 if w.useAll then site.value.allMaAns else site.value.metaAns, selected, fuel - 1);
            if children.None? then Fail
            else SetAnswer(m.questionName, Dict([("children", Dict(children.value)),
                                                 ("answer", if v.Some? then v.value else Null)]))
  }

  /** The dictionary `generate_ans` fills: each meta's answer put in order
    * into `acc`; None when a step raises. */
  function Fold(db: Db, w: Walk, metas: seq<Meta>, acc: seq<(string, Value)>, answers: seq<(string, Value)>,
                parentSel: Option<seq<(string, seq<Meta>)>>, fuel: nat): (r: Option<seq<(string, Value)>>)
    decreases fuel, |metas|
  {
    if metas == [] then Some(acc)
    else
      match Step(db, w, metas[0], answers, parentSel, fuel)
      case Fail => None
      case Skip => Fold(db, w, metas[1..], acc, answers, parentSel, fuel)
      case SetAnswer(k, v) => Fold(db, w, metas[1..], Put(acc, k, v), answers, parentSel, fuel)
  }

  /** The names of the metas. */
  function Names(metas: seq<Meta>): (r: set<string>)
    ensures forall m :: m in metas ==> m.questionName in r
    ensures forall k :: k in r ==> exists m :: m in metas && m.questionName == k
  {
    set m | m in metas :: m.questionName
  }

  /** The walk only ever adds keys named by the metas, keeps every key it
    * started with, and leaves the answers of all other keys alone. */
  lemma {:induction false} FoldKeys(db: Db, w: Walk, metas: seq<Meta>, acc: seq<(string, Value)>,
                                    answers: seq<(string, Value)>, parentSel: Option<seq<(string, seq<Meta>)>>, fuel: nat)
    requires Fold(db, w, metas, acc, answers, parentSel, fuel).Some?
    ensures forall k :: k !in Names(metas) ==> Get(Fold(db, w, metas, acc, answers, parentSel, fuel).value, k) == Get(acc, k)
    ensures forall k :: HasKey(acc, k) ==> HasKey(Fold(db, w, metas, acc, answers, parentSel, fuel).value, k)
    decreases |metas|
  {
    if metas != [] {
      assert Names(metas[1..]) <= Names(metas) by {
        forall k | k in Names(metas[1..]) ensures k in Names(metas) {
          var m :| m in metas[1..] && m.questionName == k;
        }
      }
      var s := Step(db, w, metas[0], answers, parentSel, fuel);
      if s.Skip? {
        FoldKeys(db, w, metas[1..], acc, answers, parentSel, fuel);
      } else {
        var acc' := Put(acc, s.name, s.answer);
        FoldKeys(db, w, metas[1..], acc', answers, parentSel, fuel);
        forall k | HasKey(acc, k) ensures HasKey(acc', k) {
          assert Get(acc', k).Some?;
        }
      }
    }
  }

  /** Plain metas copy the stored answers: with no Link or form-derived
    * meta, the walk puts each meta's stored answer (or '') under its name. */
  lemma PlainMetasCopyAnswers(db: Db, w: Walk, m: Meta, answers: seq<(string, Value)>, fuel: nat)
    requires m.questionType !in ["Link", "Form", "FormSubStat", "FormQuestionAnswerStatus", "FormSubCountQuestion"]
    ensures Fold(db, w, [m], [], answers, None, fuel) == Some([(m.questionName, GetOr(answers, m.questionName, Str("")))])
  {
    assert [m][1..] == [];
  }

  /** The walk of a non-empty list is its first step followed by the walk
    * of the rest. */
  lemma FoldFirst(db: Db, w: Walk, metas: seq<Meta>, acc: seq<(string, Value)>, answers: seq<(string, Value)>,
                  parentSel: Option<seq<(string, seq<Meta>)>>, fuel: nat)
    requires metas != []
    ensures var s := Step(db, w, metas[0], answers, parentSel, fuel);
      Fold(db, w, metas, acc, answers, parentSel, fuel) ==
        if s.Fail? then None
        else if s.Skip? then Fold(db, w, metas[1..], acc, answers, parentSel, fuel)
        else Fold(db, w, metas[1..], Put(acc, s.name, s.answer), answers, parentSel, fuel)
  {
  }

  /** The outcomes of a Link meta that does not point at the main project:
    * 'No site referenced' exactly when no site matches the stored answer
    * or the site's project is not among the selected ones; otherwise,
    * when the walk of the site's selected metas succeeds, its children
    * next to the raw answer. */
  lemma LinkOutcomes(db: Db, w: Walk, m: Meta, answers: seq<(string, Value)>,
                     parentSel: Option<seq<(string, seq<Meta>)>>, fuel: nat)
    requires m.questionType == "Link" && m.projectId != Some(w.mainProject)
    ensures var v := Get(answers, m.questionName);
      var site := ReferencedSite(db.sites, v, m.projectId);
      var sel := Selected(m, parentSel);
      var r := Step(db, w, m, answers, parentSel, fuel);
      (r == SetAnswer(m.questionName, Str("No site referenced")) <==>
         site.None? || (sel.Some? && !HasKey(sel.value, IntToString(site.value.project)))) &&
      (site.Some? && sel.Some? && HasKey(sel.value, IntToString(site.value.project)) && fuel > 0 ==>
         var c := Fold(db, w, Get(sel.value, IntToString(site.value.project)).value, [],
                       if w.useAll then site.value.allMaAns else site.value.metaAns, sel, fuel - 1);
         r == if c.None? then Fail
              else SetAnswer(m.questionName, Dict([("children", Dict(c.value)), ("answer", if v.Some? then v.value else Null)])))
  {
  }

  /** `generate_ans`: the loop over the metas, following links through
    * `LinkAnswer`. `acc` is the dictionary it fills. */
  method GenerateAns(db: Db, w: Walk, metas: seq<Meta>, acc: seq<(string, Value)>, answers: seq<(string, Value)>,
                     parentSel: Option<seq<(string, seq<Meta>)>>, fuel: nat)
    returns (r: Option<seq<(string, Value)>>)
    ensures r == Fold(db, w, metas, acc, answers, parentSel, fuel)
    decreases fuel, 2
  {
    var filled := acc;
    var i := 0;
    while i < |metas|
      invariant 0 <= i <= |metas|
      invariant Fold(db, w, metas, acc, answers, parentSel, fuel) == Fold(db, w, metas[i..], filled, answers, parentSel, fuel)
    {
      FoldFirst(db, w, metas[i..], filled, answers, parentSel, fuel);
      assert metas[i..][0] == metas[i] && metas[i..][1..] == metas[i + 1..];
      var step := MetaStep(db, w, metas[i], answers, parentSel, fuel);
      match step {
        case Fail => return None;
        case Skip =>
        case SetAnswer(k, v) => filled := Put(filled, k, v);
      }
      i := i + 1;
    }
    assert metas[i..] == [];
    return Some(filled);
  }

  /** The body of the loop of `generate_ans` for one meta: a Link meta
    * follows its link, any other reads its own answer. */
  method MetaStep(db: Db, w: Walk, m: Meta, answers: seq<(string, Value)>,
                  parentSel: Option<seq<(string, seq<Meta>)>>, fuel: nat) returns (r: StepOut)
    ensures r == Step(db, w, m, answers, parentSel, fuel)
    decreases fuel, 1
  {
    if m.questionType == "Link" {
      r := LinkAnswer(db, w, m, answers, parentSel, fuel);
    } else {
      r := PlainStep(db, w, m, answers);
    }
  }

  /** One Link meta: skipped when it points at the main project; otherwise
    * the referenced site is looked up, and when its project is among the
    * selected ones its metas are walked over its answers. */
  method LinkAnswer(db: Db, w: Walk, m: Meta, answers: seq<(string, Value)>,
                    parentSel: Option<seq<(string, seq<Meta>)>>, fuel: nat) returns (r: StepOut)
    requires m.questionType == "Link"
    ensures r == Step(db, w, m, answers, parentSel, fuel)
    decreases fuel, 0
  {
    var selected := if parentSel.Some? && parentSel.value != [] then parentSel else m.metas;
    if m.projectId == Some(w.mainProject) {
      return Skip;
    }
    var v := Get(answers, m.questionName);
    var site := ReferencedSite(db.sites, v, m.projectId);
    if site.None? {
      return SetAnswer(m.questionName, Str("No site referenced"));
    }
    if selected.None? {
      return Fail;
    }
    var key := IntToString(site.value.project);
    if !HasKey(selected.value, key) {
      return SetAnswer(m.questionName, Str("No site referenced"));
    }
    if fuel == 0 {
      return Fail;
    }
    var children := GenerateAns(db, w, Get(selected.value, key).value, [],
                                if w.useAll then site.value.allMaAns else site.value.metaAns, selected, fuel - 1);
    if children.None? {
      return Fail;
    }
    return SetAnswer(m.questionName, Dict([("children", Dict(children.value)), ("answer", if v.Some? then v.value else Null)]));
  }

  /** `get_site_meta_ans`: the project's metas walked over the site's
    * stored answers; None when the site does not exist or a step raises. */
  method GetSiteMetaAns(db: Db, siteId: int, projectMetas: map<int, seq<Meta>>, fuel: nat)
    returns (r: Option<seq<(string, Value)>>)
    ensures r.Some? ==>
      exists i :: 0 <= i < |db.sites| && db.sites[i].id == siteId &&
        (forall j :: 0 <= j < i ==> db.sites[j].id != siteId) && db.sites[i].project in projectMetas &&
        r == Fold(db, Walk(siteId, db.sites[i].project, false), projectMetas[db.sites[i].project], [], db.sites[i].metaAns, None, fuel)
    ensures r.Some? ==> exists s :: s in db.sites && s.id == siteId
    ensures r.Some? ==> forall k :: HasKey(r.value, k) ==>
      exists s, m :: s in db.sites && s.id == siteId && s.project in projectMetas && m in projectMetas[s.project] && m.questionName == k
    // the first site with the id, of a project with metas, gets the walk
    ensures forall i ::
      (0 <= i < |db.sites| && db.sites[i].id == siteId &&
       (forall j :: 0 <= j < i ==> db.sites[j].id != siteId) && db.sites[i].project in projectMetas) ==>
      r == Fold(db, Walk(siteId, db.sites[i].project, false), projectMetas[db.sites[i].project], [], db.sites[i].metaAns, None, fuel)
    // `Site.objects.get` raises for an unknown site
    ensures (forall s :: s in db.sites ==> s.id != siteId) ==> r.None?
  {
    var i := 0;
    while i < |db.sites| && db.sites[i].id != siteId
      invariant 0 <= i <= |db.sites|
      invariant forall j :: 0 <= j < i ==> db.sites[j].id != siteId
    {
      i := i + 1;
    }
    if i == |db.sites| || db.sites[i].project !in projectMetas {
      return None;
    }
    var site := db.sites[i];
    r := GenerateAns(db, Walk(site.id, site.project, false), projectMetas[site.project], [], site.metaAns, None, fuel);
    if r.Some? {
      FoldKeys(db, Walk(site.id, site.project, false), projectMetas[site.project], [], site.metaAns, None, fuel);
      forall k | HasKey(r.value, k)
        ensures exists m :: m in projectMetas[site.project] && m.questionName == k
      {
        assert k in Names(projectMetas[site.project]) || Get(r.value, k) == Get([], k);
      }
    }
  }

  /** `get_meta_ans`: one meta walked over the site's `all_ma_ans`. */
  function MetaAns(db: Db, site: SiteRow, m: Meta, fuel: nat): (r: Option<seq<(string, Value)>>)
    ensures r.Some? ==> forall k :: HasKey(r.value, k) ==> k == m.questionName
    // nothing (a skipped Link), or the one entry under the meta's name,
    // which every meta other than a Link produces
    ensures r.Some? ==> r.value == [] || (|r.value| == 1 && r.value[0].0 == m.questionName)
    ensures r.Some? && m.questionType != "Link" ==> |r.value| == 1
  {
    var w := Walk(site.id, site.project, true);
    var s := Step(db, w, m, site.allMaAns, None, fuel);
    FoldFirst(db, w, [m], [], site.allMaAns, None, fuel);
    assert [m][0] == m && [m][1..] == [];
    assert s.SetAnswer? ==> Put([], s.name, s.answer) == [(s.name, s.answer)];
    Fold(db, w, [m], [], site.allMaAns, None, fuel)
  }

  // ---------------------------------------------------- update_site_meta_ans

  /** The two dictionaries after popping each deleted name from both, in
    * order; the flag is false at the first KeyError, where the popping
    * stops with what was done so far. */
  function PopBoth(all: seq<(string, Value)>, own: seq<(string, Value)>, names: seq<string>)
    : (r: (seq<(string, Value)>, seq<(string, Value)>, bool))
    ensures r.2 ==> forall k :: k !in names ==> Get(r.0, k) == Get(all, k) && Get(r.1, k) == Get(own, k)
    ensures r.2 && UniqueKeys(all) && UniqueKeys(own) ==> forall n :: n in names ==> !HasKey(r.0, n) && !HasKey(r.1, n)
    ensures r.2 && UniqueKeys(all) && UniqueKeys(own) ==> UniqueKeys(r.0) && UniqueKeys(r.1)
    decreases |names|
  {
    if names == [] then (all, own, true)
    else
      match Pop(all, names[0])
      case None => (all, own, false)
      case Some(all') =>
        match Pop(own, names[0])
        case None => (all', own, false)
        case Some(own') =>
          PopKeepsUnique(all, names[0]);
          PopKeepsUnique(own, names[0]);
          var r := PopBoth(all', own', names[1..]);
          assert r.2 && UniqueKeys(all) && UniqueKeys(own) ==> forall n :: n in names ==> !HasKey(r.0, n) && !HasKey(r.1, n) by {
            if r.2 && UniqueKeys(all) && UniqueKeys(own) {
              forall n | n in names ensures !HasKey(r.0, n) && !HasKey(r.1, n) {
                if n != names[0] { assert n in names[1..]; }
              }
            }
          }
          r
  }

  /** Popping keeps a dictionary's keys unique. */
  lemma PopKeepsUnique(es: seq<(string, Value)>, k: string)
    requires Pop(es, k).Some?
    ensures UniqueKeys(es) ==> UniqueKeys(Pop(es, k).value)
  {
    PopIsRemoval(es, k);
    var a :| 0 <= a < |es| && Pop(es, k).value == es[..a] + es[a + 1..];
    var r := Pop(es, k).value;
    forall i, j | 0 <= i < j < |r| && UniqueKeys(es) ensures r[i].0 != r[j].0 {
      var x := if i < a then i else i + 1;
      var y := if j < a then j else j + 1;
      assert es[x] == r[i] && es[y] == r[j] && x < y;
    }
  }

  /** Popping the first entry's key takes that entry off. */
  lemma PopAtHead(es: seq<(string, Value)>, k: string)
    requires es != [] && es[0].0 == k
    ensures Pop(es, k) == Some(es[1..])
  {
  }

  /** Popping a key the first entry does not hold keeps that entry in
    * front. */
  lemma PopPastHead(es: seq<(string, Value)>, k: string)
    requires Pop(es, k).Some? && es[0].0 != k
    ensures Pop(es[1..], k).Some? && Pop(es, k).value == [es[0]] + Pop(es[1..], k).value
  {
  }

  /** Popping removes one entry and keeps the rest in order. */
  lemma {:induction false} PopIsRemoval(es: seq<(string, Value)>, k: string)
    requires Pop(es, k).Some?
    ensures exists a :: 0 <= a < |es| && Pop(es, k).value == es[..a] + es[a + 1..]
  {
    if es[0].0 == k {
      PopAtHead(es, k);
      assert es[..0] + es[0 + 1..] == es[1..];
    } else {
      var t := es[1..];
      PopIsRemoval(t, k);
      var a :| 0 <= a < |t| && Pop(t, k).value == t[..a] + t[a + 1..];
      PopPastHead(es, k);
      var b := a + 1;
      assert es[..b] == [es[0]] + t[..a];
      assert es[b + 1..] == t[a + 1..];
      assert 0 <= b < |es| && Pop(es, k).value == es[..b] + es[b + 1..];
    }
  }

  /** `all_ma_ans` after merging the answers of each changed meta, each
    * computed from the dictionary as it stands; the flag is false at the
    * first step that raises. */
  function MergeAll(db: Db, site: SiteRow, changed: seq<Meta>, fuel: nat): (r: (seq<(string, Value)>, bool))
    ensures forall k :: k !in Names(changed) ==> Get(r.0, k) == Get(site.allMaAns, k)
    // on success no key is lost, and every changed meta other than a Link
    // has its answer merged in under its name
    ensures r.1 ==> forall k :: HasKey(site.allMaAns, k) ==> HasKey(r.0, k)
    ensures r.1 ==> forall m :: m in changed && m.questionType != "Link" ==> HasKey(r.0, m.questionName)
    decreases |changed|
  {
    if changed == [] then (site.allMaAns, true)
    else
      match MetaAns(db, site, changed[0], fuel)
      case None => (site.allMaAns, false)
      case Some(meta) =>
        var merged := Update(site.allMaAns, meta);
        assert forall k :: k != changed[0].questionName ==> !HasKey(meta, k);
        var r := MergeAll(db, site.(allMaAns := merged), changed[1..], fuel);
        assert forall k :: k !in Names(changed) ==> k !in Names(changed[1..]) && k != changed[0].questionName by {
          forall k | k in Names(changed[1..]) ensures k in Names(changed) {
            var m :| m in changed[1..] && m.questionName == k;
          }
        }
        assert changed[0].questionType != "Link" ==> HasKey(merged, changed[0].questionName) by {
          if changed[0].questionType != "Link" {
            assert HasKey(meta, meta[0].0);
          }
        }
        assert forall m :: m in changed ==> m == changed[0] || m in changed[1..];
        r
  }

  /** Merging one more changed meta: after a failure nothing more happens;
    * otherwise that meta's answer is computed on the dictionary merged so
    * far and put under its name, and every other name keeps its answer. */
  lemma {:induction false} MergeAllLast(db: Db, site: SiteRow, changed: seq<Meta>, m: Meta, fuel: nat)
    ensures var p := MergeAll(db, site, changed, fuel);
      var q := MergeAll(db, site, changed + [m], fuel);
      && (!p.1 ==> q == p)
      && (p.1 ==>
            match MetaAns(db, site.(allMaAns := p.0), m, fuel)
            case None => q == (p.0, false)
            case Some(meta) =>
              && q.1
              && (forall k :: k != m.questionName ==> Get(q.0, k) == Get(p.0, k))
              && (meta != [] ==> Get(q.0, m.questionName) == Some(meta[0].1)))
    decreases |changed|
  {
    if changed == [] {
      assert [m][1..] == [] && [m][0] == m;
      assert changed + [m] == [m];
    } else {
      assert (changed + [m])[0] == changed[0] && (changed + [m])[1..] == changed[1..] + [m];
      match MetaAns(db, site, changed[0], fuel)
      case None =>
      case Some(meta) =>
        MergeAllLast(db, site.(allMaAns := Update(site.allMaAns, meta)), changed[1..], m, fuel);
    }
  }

  /** A site's two answer dictionaries, held in memory while
    * `update_site_meta_ans` edits them; `saves` counts `site.save()`. */
  class SiteAnswers {
    const id: int
    const project: int
    const identifier: Option<string>
    var allMaAns: seq<(string, Value)>
    var metaAns: seq<(string, Value)>
    var saves: nat

    constructor(row: SiteRow)
      ensures id == row.id && project == row.project && identifier == row.identifier
      ensures allMaAns == row.allMaAns && metaAns == row.metaAns && saves == 0
    {
      id := row.id;
      project := row.project;
      identifier := row.identifier;
      allMaAns := row.allMaAns;
      metaAns := row.metaAns;
      saves := 0;
    }

    function Row(): SiteRow
      reads this
    {
      SiteRow(id, identifier, project, metaAns, allMaAns)
    }

    /** `update_site_meta_ans`: pop every deleted name from both
      * dictionaries, then merge in the answer of every changed meta, then
      * save. An exception stops it where it is, unsaved. */
    method UpdateSiteMetaAns(db: Db, deleted: seq<string>, changed: seq<Meta>, fuel: nat) returns (ok: bool)
      modifies this
      ensures var p := PopBoth(old(allMaAns), old(metaAns), deleted);
        metaAns == p.1 &&
        (!p.2 ==> allMaAns == p.0 && !ok) &&
        (p.2 ==> (allMaAns, ok) == MergeAll(db, SiteRow(id, identifier, project, p.1, p.0), changed, fuel))
      ensures saves == old(saves) + (if ok then 1 else 0)
    {
      var i := 0;
      while i < |deleted|
        invariant 0 <= i <= |deleted|
        invariant saves == old(saves)
        invariant PopBoth(old(allMaAns), old(metaAns), deleted) == PopBoth(allMaAns, metaAns, deleted[i..])
      {
        assert deleted[i..][0] == deleted[i] && deleted[i..][1..] == deleted[i + 1..];
        var a := Pop(allMaAns, deleted[i]);
        if a.None? {
          return false;
        }
        allMaAns := a.value;
        var o := Pop(metaAns, deleted[i]);
        if o.None? {
          return false;
        }
        metaAns := o.value;
        i := i + 1;
      }
      assert deleted[i..] == [];
      var j := 0;
      while j < |changed|
        invariant 0 <= j <= |changed|
        invariant saves == old(saves)
        invariant metaAns == PopBoth(old(allMaAns), old(metaAns), deleted).1
        invariant MergeAll(db, SiteRow(id, identifier, project, metaAns, PopBoth(old(allMaAns), old(metaAns), deleted).0), changed, fuel)
               == MergeAll(db, Row(), changed[j..], fuel)
      {
        assert changed[j..][0] == changed[j] && changed[j..][1..] == changed[j + 1..];
        var meta := MetaAns(db, Row(), changed[j], fuel);
        if meta.None? {
          return false;
        }
        allMaAns := Update(allMaAns, meta.value);
        j := j + 1;
      }
      assert changed[j..] == [];
      saves := saves + 1;
      return true;
    }
  }

  /** After a successful update, the deleted names are gone from the site's
    * own answers, and every key that is neither deleted nor changed keeps
    * its answer in both dictionaries. */
  lemma UpdateRemovesDeleted(db: Db, all: seq<(string, Value)>, own: seq<(string, Value)>, deleted: seq<string>,
                             site: SiteRow, changed: seq<Meta>, fuel: nat)
    requires UniqueKeys(all) && UniqueKeys(own)
    requires PopBoth(all, own, deleted).2
    requires site.allMaAns == PopBoth(all, own, deleted).0
    ensures forall n :: n in deleted ==> !HasKey(PopBoth(all, own, deleted).1, n)
    ensures forall k :: k !in deleted && k !in Names(changed) ==>
      Get(MergeAll(db, site, changed, fuel).0, k) == Get(all, k) && Get(PopBoth(all, own, deleted).1, k) == Get(own, k)
  {
  }
}
