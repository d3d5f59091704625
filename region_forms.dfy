/** The form logic of fieldsight/forms.py: the username pattern of the
  * registration form, the group choice of the project role form, the
  * region identifier shown and accepted by the region form, and the fields
  * of the bulk site edit form. */
module RegionForms {
  import opened Common
  import opened JsonValues
  import opened Strings

  // ------------------------------------------------------------ usernames

  const UsernameMaxLength := 30

  predicate Lower(c: char) { 'a' <= c <= 'z' }

  predicate WordChar(c: char) { Lower(c) || ('0' <= c <= '9') || c == '_' }

  /** `[a-z][a-z0-9_]+` covering all of `b`. */
  predicate UsernameBody(b: string)
  {
    |b| >= 2 && Lower(b[0]) && forall i :: 1 <= i < |b| ==> WordChar(b[i])
  }

  /** `re.search(r'^[a-z][a-z0-9_]+$', s)`: Python's `$` also matches just
    * before a newline that ends the string. */
  predicate UsernameMatches(s: string)
  {
    UsernameBody(s) || (|s| >= 1 && s[|s| - 1] == '\n' && UsernameBody(s[..|s| - 1]))
  }

  /** The username field: the pattern and the length limit. */
  predicate UsernameAccepted(s: string)
  {
    |s| <= UsernameMaxLength && UsernameMatches(s)
  }

  /** How the pattern is matched, step by step: the greedy run of
    * `[a-z0-9_]` from `i`, then the end of the string or a final newline. */
  function MatchRun(s: string, i: nat): (r: bool)
    requires 1 <= i <= |s|
    decreases |s| - i
  {
    if i == |s| then true
    else if WordChar(s[i]) then MatchRun(s, i + 1)
    else s[i] == '\n' && i == |s| - 1
  }

  /** The matcher: a lower-case letter, at least one more word character,
    * then the run. */
  function MatchUsername(s: string): (r: bool)
  {
    |s| >= 2 && Lower(s[0]) && WordChar(s[1]) && MatchRun(s, 2)
  }

  /** What the run accepts from `i`: word characters to the end, possibly
    * followed by one newline. */
  lemma {:induction false} MatchRunSound(s: string, i: nat)
    requires 1 <= i <= |s|
    ensures MatchRun(s, i) <==>
      (forall k :: i <= k < |s| ==> WordChar(s[k])) ||
      (s[|s| - 1] == '\n' && forall k :: i <= k < |s| - 1 ==> WordChar(s[k]))
    decreases |s| - i
  {
    if i < |s| {
      MatchRunSound(s, i + 1);
    }
  }

  /** The step-by-step matcher agrees with the pattern. */
  lemma MatcherAgrees(s: string)
    ensures MatchUsername(s) <==> UsernameMatches(s)
  {
    if |s| >= 2 {
      MatchRunSound(s, 2);
      if |s| >= 3 && s[|s| - 1] == '\n' {
        var b := s[..|s| - 1];
        assert forall k :: 1 <= k < |b| ==> b[k] == s[k];
      }
    }
  }

  /** A username without a newline is accepted exactly when it has 2 to 30
    * characters, starts with a lower-case letter and holds only lower-case
    * letters, digits and underscores. */
  lemma UsernameShape(s: string)
    requires '\n' !in s
    ensures UsernameAccepted(s) <==>
      2 <= |s| <= 30 && Lower(s[0]) && forall i :: 0 <= i < |s| ==> WordChar(s[i])
  {
    if |s| >= 1 {
      assert s[|s| - 1] in s;
    }
  }

  /** The pattern lets a trailing newline through: "ab\n" matches. */
  lemma TrailingNewlineMatches()
    ensures UsernameAccepted("ab\n")
    ensures !UsernameAccepted("a") && !UsernameAccepted("1ab") && !UsernameAccepted("aB")
  {
    assert "ab\n"[..2] == "ab";
    assert "a"[..0] == "";
    assert "1ab"[0] == '1' && "1ab"[2] != '\n';
    assert "aB"[1] == 'B' && "aB"[..1] == "a";
  }

  // ------------------------------------------------- SetProjectRoleForm

  /** The group choices: the groups of the table named 'Project Manager'. */
  function ProjectRoleGroups(groups: seq<Group>): (r: seq<Group>)
    ensures forall g :: g in r ==> g == ProjectManager
    ensures ProjectManager in groups <==> ProjectManager in r
  {
    Where(groups, (g: Group) => GroupName(g) in ["Project Manager"])
  }

  // ---------------------------------------------------------- RegionForm

  const IdentifierMessage := "Identifier cannot contains '_' or ' ' , please try again by removing it."

  datatype Cleaned = Cleaned(value: string) | Rejected(message: string)

  /** `clean_identifier`. */
  function CleanIdentifier(identifier: string): (r: Cleaned)
    ensures r.Cleaned? <==> '_' !in identifier && ' ' !in identifier
    ensures r.Cleaned? ==> r.value == identifier
    ensures r.Rejected? ==> r.message == IdentifierMessage
  {
    if '_' in identifier || ' ' in identifier then Rejected(IdentifierMessage) else Cleaned(identifier)
  }

  /** The initial identifier `__init__` shows: for a saved region (a
    * truthy id), the last '_'-separated piece of the stored identifier. */
  function InitialIdentifier(id: Option<int>, stored: string): (r: Option<string>)
    ensures r.Some? <==> id.Some? && id.value != 0
    ensures r.Some? ==> '_' !in r.value
  {
    if id.Some? && id.value != 0 then
      var pieces := Split(stored, '_');
      Some(pieces[|pieces| - 1])
    else None
  }

  /** A stored identifier that is a prefix, '_' and a piece shows that
    * piece; one without '_' shows itself. */
  lemma InitialIdentifierStripsPrefix(id: int, prefix: string, piece: string)
    requires id != 0 && '_' !in piece
    ensures InitialIdentifier(Some(id), prefix + "_" + piece) == Some(piece)
    ensures InitialIdentifier(Some(id), piece) == Some(piece)
  {
    SplitLast(prefix, piece, '_');
    SplitNone(piece, '_');
  }

  /** The last piece of `a + c + b` is the last piece of `b`. */
  lemma {:induction false} SplitLast(a: string, b: string, c: char)
    ensures var p := Split(a + [c] + b, c);
      |p| >= 2 && p[|p| - 1] == Split(b, c)[|Split(b, c)| - 1]
    decreases |a|
  {
    if a == [] {
      assert ([c] + b)[1..] == b;
    } else {
      SplitLast(a[1..], b, c);
      assert (a + [c] + b)[1..] == a[1..] + [c] + b;
    }
  }

  /** The initial identifier passes `clean_identifier` unless it holds a
    * space. */
  lemma InitialIdentifierIsClean(id: int, stored: string)
    requires id != 0
    ensures var shown := InitialIdentifier(Some(id), stored).value;
      CleanIdentifier(shown).Cleaned? <==> ' ' !in shown
  {
  }

  // ------------------------------------------------------ SiteBulkEditForm

  /** The kinds of field the bulk edit form holds. */
  datatype Field =
    | SitesField(sites: seq<int>)
    | FloatField
    | DateField
    | ChoiceField(choices: seq<(Value, Value)>)
    | CharField

  /** `[o.get('option_text') for o in options]`, each as a (value, label)
    * pair; None is an option that is not a dictionary. */
  function OptionChoices(options: seq<Value>): (r: Option<seq<(Value, Value)>>)
    ensures r.Some? ==> |r.value| == |options|
    ensures r.Some? ==> forall i :: 0 <= i < |options| ==>
      options[i].Dict? && r.value[i].0 == r.value[i].1 &&
      r.value[i].0 == (match Get(options[i].entries, "option_text") case Some(t) => t case None => Null)
    ensures r.None? <==> exists i :: 0 <= i < |options| && !options[i].Dict?
  {
    if options == [] then Some([])
    else if !options[0].Dict? then None
    else
      match OptionChoices(options[1..])
      case None => None
      case Some(rest) =>
        var text := match Get(options[0].entries, "option_text") case Some(t) => t case None => Null;
        Some([(text, text)] + rest)
  }

  /** The field for one meta attribute and its name; None is a missing key,
    * a name that is not a string, or options that cannot be read. */
  function FieldFor(attr: seq<(string, Value)>): (r: Option<(string, Field)>)
    ensures r.Some? ==> Get(attr, "question_type").Some? && Get(attr, "question_name") == Some(Str(r.value.0))
    ensures r.Some? ==> var t := Get(attr, "question_type").value;
      (t == Str("Number") <==> r.value.1 == FloatField) &&
      (t == Str("Date") <==> r.value.1 == DateField) &&
      (t == Str("MCQ") <==> r.value.1.ChoiceField?) &&
      (t != Str("Number") && t != Str("Date") && t != Str("MCQ") <==> r.value.1 == CharField)
    ensures NamedMcq(attr) && !HasOptions(attr) ==> r == Some((Get(attr, "question_name").value.s, ChoiceField([])))
  {
    var qtype := Get(attr, "question_type");
    var qname := Get(attr, "question_name");
    if qtype.None? || qname.None? || !qname.value.Str? then None
    else
      var t := qtype.value;
      var name := qname.value.s;
      if t == Str("Number") then Some((name, FloatField))
      else if t == Str("Date") then Some((name, DateField))
      else if t == Str("MCQ") then
        var options := match Get(attr, "mcq_options") case Some(o) => o case None => Null;
        if !PyTruthy(options) then Some((name, ChoiceField([])))
        else if !options.List? then None
        else
          match OptionChoices(options.items)
          case None => None
          case Some(cs) => Some((name, ChoiceField(cs)))
      else Some((name, CharField))
  }

  /** An MCQ attribute with a string name. */
  predicate NamedMcq(attr: seq<(string, Value)>)
  {
    Get(attr, "question_type") == Some(Str("MCQ")) &&
    Get(attr, "question_name").Some? && Get(attr, "question_name").value.Str?
  }

  /** `attr.get('mcq_options')` is truthy. */
  predicate HasOptions(attr: seq<(string, Value)>)
  {
    Get(attr, "mcq_options").Some? && PyTruthy(Get(attr, "mcq_options").value)
  }

  /** The fields after the first `|attrs|` attributes: 'sites' first, then
    * each attribute's field stored under its name, a repeated name
    * replacing the earlier field in place. */
  function BulkFields(activeSites: seq<int>, attrs: seq<seq<(string, Value)>>): (r: Option<seq<(string, Field)>>)
    decreases |attrs|
  {
    if attrs == [] then Some([("sites", SitesField(activeSites))])
    else
      match BulkFields(activeSites, attrs[..|attrs| - 1])
      case None => None
      case Some(fields) =>
        match FieldFor(attrs[|attrs| - 1])
        case None => None
        case Some((name, field)) => Some(Put(fields, name, field))
  }

  /** `SiteBulkEditForm.__init__`: the 'sites' field over the project's
    * active sites, then one field per meta attribute, in a loop. */
  method BulkEditFields(activeSites: seq<int>, attrs: seq<seq<(string, Value)>>) returns (r: Option<seq<(string, Field)>>)
    ensures r == BulkFields(activeSites, attrs)
  {
    var fields := [("sites", SitesField(activeSites))];
    var i := 0;
    while i < |attrs|
      invariant 0 <= i <= |attrs|
      invariant BulkFields(activeSites, attrs[..i]) == Some(fields)
    {
      BulkFieldsStep(activeSites, attrs, i);
      var f := FieldFor(attrs[i]);
      if f.None? {
        BulkFailureSticks(activeSites, attrs, i + 1);
        assert attrs[..|attrs|] == attrs;
        return None;
      }
      fields := Put(fields, f.value.0, f.value.1);
      i := i + 1;
    }
    assert attrs[..i] == attrs;
    return Some(fields);
  }

  /** One more attribute: its field is added, or the form fails. */
  lemma BulkFieldsStep(activeSites: seq<int>, attrs: seq<seq<(string, Value)>>, i: int)
    requires 0 <= i < |attrs|
    ensures BulkFields(activeSites, attrs[..i]).None? || FieldFor(attrs[i]).None? ==>
      BulkFields(activeSites, attrs[..i + 1]).None?
    ensures BulkFields(activeSites, attrs[..i]).Some? && FieldFor(attrs[i]).Some? ==>
      BulkFields(activeSites, attrs[..i + 1]) ==
        Some(Put(BulkFields(activeSites, attrs[..i]).value, FieldFor(attrs[i]).value.0, FieldFor(attrs[i]).value.1))
  {
    var next := attrs[..i + 1];
    assert next[..|next| - 1] == attrs[..i] && next[|next| - 1] == attrs[i];
  }

  /** Once an attribute fails, the whole form fails. */
  lemma {:induction false} BulkFailureSticks(activeSites: seq<int>, attrs: seq<seq<(string, Value)>>, n: nat)
    requires n <= |attrs| && BulkFields(activeSites, attrs[..n]).None?
    ensures BulkFields(activeSites, attrs).None?
    decreases |attrs| - n
  {
    if n < |attrs| {
      assert attrs[..n + 1][..n] == attrs[..n];
      BulkFailureSticks(activeSites, attrs, n + 1);
    } else {
      assert attrs[..n] == attrs;
    }
  }

  /** Every attribute's name is a field, holding the field of the last
    * attribute with that name; 'sites' leads unless an attribute takes its
    * name. */
  lemma {:induction false} BulkFieldsHoldAttributes(activeSites: seq<int>, attrs: seq<seq<(string, Value)>>, i: int)
    requires 0 <= i < |attrs| && BulkFields(activeSites, attrs).Some? && FieldFor(attrs[i]).Some?
    requires forall j :: i < j < |attrs| ==> FieldFor(attrs[j]).Some? && FieldFor(attrs[j]).value.0 != FieldFor(attrs[i]).value.0
    ensures Get(BulkFields(activeSites, attrs).value, FieldFor(attrs[i]).value.0) == Some(FieldFor(attrs[i]).value.1)
    decreases |attrs|
  {
    var init := attrs[..|attrs| - 1];
    var last := FieldFor(attrs[|attrs| - 1]).value;
    var prev := BulkFields(activeSites, init).value;
    assert BulkFields(activeSites, attrs).value == Put(prev, last.0, last.1);
    if i < |attrs| - 1 {
      var f := FieldFor(attrs[i]).value;
      assert init[i] == attrs[i];
      forall j | i < j < |init| ensures FieldFor(init[j]).Some? && FieldFor(init[j]).value.0 != f.0 {
        assert init[j] == attrs[j];
      }
      BulkFieldsHoldAttributes(activeSites, init, i);
      assert last.0 != f.0;
    }
  }

  /** The first field is 'sites' over the active sites when no attribute is
    * named 'sites'. */
  lemma {:induction false} SitesFieldFirst(activeSites: seq<int>, attrs: seq<seq<(string, Value)>>)
    requires BulkFields(activeSites, attrs).Some?
    requires forall j :: 0 <= j < |attrs| ==> FieldFor(attrs[j]).Some? ==> FieldFor(attrs[j]).value.0 != "sites"
    ensures var r := BulkFields(activeSites, attrs).value; |r| >= 1 && r[0] == ("sites", SitesField(activeSites))
    decreases |attrs|
  {
    if attrs != [] {
      var init := attrs[..|attrs| - 1];
      forall j | 0 <= j < |init| ensures FieldFor(init[j]).Some? ==> FieldFor(init[j]).value.0 != "sites" {
        assert init[j] == attrs[j];
      }
      SitesFieldFirst(activeSites, init);
      var prev := BulkFields(activeSites, init).value;
      var f := FieldFor(attrs[|attrs| - 1]).value;
      PutEntries(prev, f.0, f.1, 0);
    }
  }
}
