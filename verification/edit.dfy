/** The `edit` command's decisions (cmd/edit.go): the form's starting
    values, which of them the form shows, and the updates that the values
    the user leaves in it call for. The form itself is an input: a function
    from the starting values to the user's answers or the form's error. */
module Edit {
  import opened Errors
  import opened Strs
  import opened Json
  import opened Wi
  import opened Render

  /** `contains`: a scan for an element equal to `v`. */
  method Contains(list: seq<string>, v: string) returns (found: bool)
    ensures found <==> v in list
  {
    var i := 0;
    while i < |list|
      invariant 0 <= i <= |list|
      invariant v !in list[..i]
    {
      if list[i] == v {
        return true;
      }
      assert list[..i + 1] == list[..i] + [list[i]];
      i := i + 1;
    }
    assert list[..i] == list;
    return false;
  }

  /** The column the form starts on: the current one when it is a column of
      the order, else the order's first column. */
  function DefaultColumn(order: seq<string>, current: string): (col: string)
    requires |order| > 0
    ensures col in order
    ensures current != "" && current in order ==> col == current
    ensures current == "" || current !in order ==> col == order[0]
  {
    if current == "" || current !in order then order[0] else current
  }

  /** The values the form holds: what the user sees first, and what the
      user leaves there on submitting. */
  datatype Form = Form(title: string, state: string, severity: string, assignee: string,
                       column: string, description: string, criteria: string, proceed: bool)

  function TypeOf(wi: WorkItem): string
  {
    FieldString(wi.fields, TypeKey)
  }

  /** The form's starting values. `toMarkdown` is the HTML to markdown
      converter. A Bug's blank severity starts as "3 - Medium"; only a User
      Story has a column and acceptance criteria. */
  function Prefill(wi: WorkItem, current: string, order: seq<string>, toMarkdown: string -> string): (f: Form)
    requires |order| > 0
    ensures f.title == FieldString(wi.fields, TitleKey) && f.state == FieldString(wi.fields, StateKey)
    ensures f.assignee == AssigneeDisplay(wi.fields) && !f.proceed
    ensures f.description == Markdown(toMarkdown, FieldString(wi.fields, DescriptionKey))
    ensures TypeOf(wi) == "Bug" ==> f.severity != ""
    ensures TypeOf(wi) != "Bug" ==> f.severity == ""
    ensures TypeOf(wi) == "User Story" ==> f.column in order
    ensures TypeOf(wi) != "User Story" ==> f.column == "" && f.criteria == ""
  {
    var t := TypeOf(wi);
    var sev := FieldString(wi.fields, SeverityKey);
    Form(FieldString(wi.fields, TitleKey), FieldString(wi.fields, StateKey),
         if t == "Bug" then (if TrimSpace(sev) == "" then MediumSeverity else sev) else "",
         AssigneeDisplay(wi.fields),
         if t == "User Story" then DefaultColumn(order, current) else "",
         Markdown(toMarkdown, FieldString(wi.fields, DescriptionKey)),
         if t == "User Story" then Markdown(toMarkdown, FieldString(wi.fields, CriteriaKey)) else "",
         false)
  }

  /** `htmlToMarkdown`: blank HTML is the empty text; otherwise the trimmed
      conversion. The converter is not part of this model. */
  function Markdown(toMarkdown: string -> string, html: string): string
  {
    if TrimSpace(html) == "" then "" else TrimSpace(toMarkdown(html))
  }

  /** `markdownToHTML`: blank markdown is the empty text. */
  function Html(toHtml: string -> string, md: string): string
  {
    if TrimSpace(md) == "" then "" else toHtml(md)
  }

  /** The values after the form ran: the fields the form shows for this
      type take the user's values, the others keep their starting value. A
      User Story has no state field, only a Bug has a severity, and only a
      User Story has a column and acceptance criteria. */
  function OnForm(wtype: string, start: Form, answer: Form): (f: Form)
    ensures f.title == answer.title && f.assignee == answer.assignee && f.description == answer.description
    ensures f.proceed == answer.proceed
    ensures f.state == if wtype != "User Story" then answer.state else start.state
    ensures f.severity == if wtype == "Bug" then answer.severity else start.severity
    ensures f.column == if wtype == "User Story" then answer.column else start.column
    ensures f.criteria == if wtype == "User Story" then answer.criteria else start.criteria
  {
    Form(answer.title,
         if wtype != "User Story" then answer.state else start.state,
         if wtype == "Bug" then answer.severity else start.severity,
         answer.assignee,
         if wtype == "User Story" then answer.column else start.column,
         answer.description,
         if wtype == "User Story" then answer.criteria else start.criteria,
         answer.proceed)
  }

  /** The fixed field names are pairwise different. */
  lemma FixedKeysApart()
    ensures TitleKey != StateKey && TitleKey != DescriptionKey && TitleKey != CriteriaKey && TitleKey != AssigneeKey
    ensures StateKey != DescriptionKey && StateKey != CriteriaKey && StateKey != AssigneeKey
    ensures DescriptionKey != CriteriaKey && DescriptionKey != AssigneeKey && CriteriaKey != AssigneeKey
  {
    assert TitleKey[7] != StateKey[7];
    assert |TitleKey| == 12 && |StateKey| == 12 && |DescriptionKey| == 18;
    assert |CriteriaKey| == 40 && |AssigneeKey| == 17;
  }

  /** A Kanban key never collides with the fixed field names. */
  lemma KanbanKeyApart(key: string)
    requires key == "" || IsKanbanKey(key)
    ensures key != TitleKey && key != StateKey && key != DescriptionKey
    ensures key != CriteriaKey && key != AssigneeKey
  {
    assert key == "" || key[0] == 'W';
    assert TitleKey[0] == 'S' && StateKey[0] == 'S' && DescriptionKey[0] == 'S';
    assert CriteriaKey[0] == 'M' && AssigneeKey[0] == 'S';
  }

  /** The column move: for a type other than Task, to a non-empty column
      other than the current one, through a Kanban key. */
  predicate MovesColumn(wi: WorkItem, current: string, key: string, f: Form)
  {
    TypeOf(wi) != "Task" && f.column != current && f.column != "" && key != ""
  }

  /** A cleared assignee field on an assigned item unassigns it. */
  predicate Unassigns(wi: WorkItem, f: Form)
  {
    TrimSpace(f.assignee) == "" && AssigneeDisplay(wi.fields) != ""
  }

  /** One candidate entry of the fields map: set `key` to `value` when `on`. */
  datatype Entry = Entry(key: string, value: string, on: bool)

  /** The map the entries fill, one after another. */
  function Collect(es: seq<Entry>): map<string, string>
  {
    if es == [] then map[]
    else
      var m := Collect(es[..|es| - 1]);
      var e := es[|es| - 1];
      if e.on then m[e.key := e.value] else m
  }

  predicate DistinctKeys(es: seq<Entry>)
  {
    forall i, j :: 0 <= i < j < |es| ==> es[i].key != es[j].key
  }

  /** With distinct keys, an entry's key is in the map exactly when the
      entry is on, with its value; the map has no other keys. */
  lemma {:induction false} CollectSpec(es: seq<Entry>)
    requires DistinctKeys(es)
    ensures forall i :: 0 <= i < |es| ==> (es[i].key in Collect(es) <==> es[i].on)
    ensures forall i :: 0 <= i < |es| && es[i].on ==> Collect(es)[es[i].key] == es[i].value
    ensures forall k :: k in Collect(es) ==> exists i :: 0 <= i < |es| && es[i].key == k
  {
    if es != [] {
      var init := es[..|es| - 1];
      assert forall i :: 0 <= i < |init| ==> init[i] == es[i];
      CollectSpec(init);
    }
  }

  /** The entries of `edit`'s fields map, in the order the command sets
      them. `key` is a Kanban field of the item, or "" when it has none. */
  function Entries(wi: WorkItem, current: string, key: string, f: Form,
                   description: string, criteria: string, toHtml: string -> string): (es: seq<Entry>)
    ensures |es| == 6
  {
    [Entry(TitleKey, f.title, f.title != FieldString(wi.fields, TitleKey)),
     Entry(StateKey, f.state, f.state != FieldString(wi.fields, StateKey)),
     Entry(key, f.column, MovesColumn(wi, current, key, f)),
     Entry(DescriptionKey, Html(toHtml, f.description), TrimSpace(f.description) != TrimSpace(description)),
     Entry(CriteriaKey, Html(toHtml, f.criteria), TypeOf(wi) == "User Story" && TrimSpace(f.criteria) != TrimSpace(criteria)),
     Entry(AssigneeKey, "", Unassigns(wi, f))]
  }

  /** The fields update. */
  function Changes(wi: WorkItem, current: string, key: string, f: Form,
                   description: string, criteria: string, toHtml: string -> string): map<string, string>
  {
    Collect(Entries(wi, current, key, f, description, criteria, toHtml))
  }

  /** The fields update holds every field whose value differs from the
      item's, with text compared as trimmed markdown, and nothing else. */
  predicate ChangeSetOf(m: map<string, string>, wi: WorkItem, current: string, key: string, f: Form,
                        description: string, criteria: string, toHtml: string -> string)
  {
    && (TitleKey in m <==> f.title != FieldString(wi.fields, TitleKey))
    && (TitleKey in m ==> m[TitleKey] == f.title)
    && (StateKey in m <==> f.state != FieldString(wi.fields, StateKey))
    && (StateKey in m ==> m[StateKey] == f.state)
    && (key in m <==> MovesColumn(wi, current, key, f))
    && (key in m ==> m[key] == f.column)
    && (DescriptionKey in m <==> TrimSpace(f.description) != TrimSpace(description))
    && (DescriptionKey in m ==> m[DescriptionKey] == Html(toHtml, f.description))
    && (CriteriaKey in m <==> TypeOf(wi) == "User Story" && TrimSpace(f.criteria) != TrimSpace(criteria))
    && (CriteriaKey in m ==> m[CriteriaKey] == Html(toHtml, f.criteria))
    && (AssigneeKey in m <==> Unassigns(wi, f))
    && (AssigneeKey in m ==> m[AssigneeKey] == "")
    && (forall k :: k in m ==> k in {TitleKey, StateKey, key, DescriptionKey, CriteriaKey, AssigneeKey})
  }

  lemma ChangesSpec(wi: WorkItem, current: string, key: string, f: Form,
                    description: string, criteria: string, toHtml: string -> string)
    requires key == "" || IsKanbanKey(key)
    ensures ChangeSetOf(Changes(wi, current, key, f, description, criteria, toHtml),
                        wi, current, key, f, description, criteria, toHtml)
  {
    KanbanKeyApart(key);
    FixedKeysApart();
    SixEntries(TitleKey, StateKey, key, DescriptionKey, CriteriaKey, AssigneeKey,
      f.title, f.state, f.column, Html(toHtml, f.description), Html(toHtml, f.criteria), "",
      f.title != FieldString(wi.fields, TitleKey), f.state != FieldString(wi.fields, StateKey),
      MovesColumn(wi, current, key, f), TrimSpace(f.description) != TrimSpace(description),
      TypeOf(wi) == "User Story" && TrimSpace(f.criteria) != TrimSpace(criteria), Unassigns(wi, f));
  }

  /** `CollectSpec` for six entries. */
  lemma SixEntries(k1: string, k2: string, k3: string, k4: string, k5: string, k6: string,
                   v1: string, v2: string, v3: string, v4: string, v5: string, v6: string,
                   b1: bool, b2: bool, b3: bool, b4: bool, b5: bool, b6: bool)
    requires k1 != k2 && k1 != k3 && k1 != k4 && k1 != k5 && k1 != k6
    requires k2 != k3 && k2 != k4 && k2 != k5 && k2 != k6
    requires k3 != k4 && k3 != k5 && k3 != k6 && k4 != k5 && k4 != k6 && k5 != k6
    ensures var m := Collect([Entry(k1, v1, b1), Entry(k2, v2, b2), Entry(k3, v3, b3),
                              Entry(k4, v4, b4), Entry(k5, v5, b5), Entry(k6, v6, b6)]);
      && (k1 in m <==> b1) && (b1 ==> m[k1] == v1)
      && (k2 in m <==> b2) && (b2 ==> m[k2] == v2)
      && (k3 in m <==> b3) && (b3 ==> m[k3] == v3)
      && (k4 in m <==> b4) && (b4 ==> m[k4] == v4)
      && (k5 in m <==> b5) && (b5 ==> m[k5] == v5)
      && (k6 in m <==> b6) && (b6 ==> m[k6] == v6)
      && (forall k :: k in m ==> k in {k1, k2, k3, k4, k5, k6})
  {
    var es := [Entry(k1, v1, b1), Entry(k2, v2, b2), Entry(k3, v3, b3),
               Entry(k4, v4, b4), Entry(k5, v5, b5), Entry(k6, v6, b6)];
    assert DistinctKeys(es);
    CollectSpec(es);
    assert es[0].key == k1 && es[1].key == k2 && es[2].key == k3;
    assert es[3].key == k4 && es[4].key == k5 && es[5].key == k6;
  }

  lemma CollectStep(es: seq<Entry>, j: int)
    requires 0 < j <= |es|
    ensures Collect(es[..j]) ==
      var m := Collect(es[..j - 1]);
      if es[j - 1].on then m[es[j - 1].key := es[j - 1].value] else m
  {
    assert es[..j][..j - 1] == es[..j - 1];
  }

  /** The fields map, filled entry by entry in the command's order: each
      entry's key is set when its condition holds. */
  method Fill(es: seq<Entry>) returns (fields: map<string, string>)
    requires |es| == 6
    ensures fields == Collect(es)
  {
    fields := map[];
    assert fields == Collect(es[..0]);
    if es[0].on {
      fields := fields[es[0].key := es[0].value];
    }
    CollectStep(es, 1);
    if es[1].on {
      fields := fields[es[1].key := es[1].value];
    }
    CollectStep(es, 2);
    if es[2].on {
      fields := fields[es[2].key := es[2].value];
    }
    CollectStep(es, 3);
    if es[3].on {
      fields := fields[es[3].key := es[3].value];
    }
    CollectStep(es, 4);
    if es[4].on {
      fields := fields[es[4].key := es[4].value];
    }
    CollectStep(es, 5);
    if es[5].on {
      fields := fields[es[5].key := es[5].value];
    }
    CollectLast(es);
  }

  lemma CollectLast(es: seq<Entry>)
    requires |es| == 6
    ensures Collect(es) == if es[5].on then Collect(es[..5])[es[5].key := es[5].value] else Collect(es[..5])
  {
  }

  /** One of the updates `edit` may issue. */
  datatype Update = SetFields(fields: map<string, string>) | Assign(assignee: string)

  /** The severity a Bug ends with: blank becomes "3 - Medium". */
  function Severity(f: Form): string
  {
    if TrimSpace(f.severity) == "" then MediumSeverity else f.severity
  }

  /** The updates, in the order they are issued: the fields update when
      there is anything in it; for a Bug, the severity alone when it differs
      (trimmed) from the current one; the assignee when it is non-blank and
      differs from the displayed one. */
  function Plan(fields: map<string, string>, wi: WorkItem, f: Form): seq<Update>
  {
    FieldsStage(fields) + SeverityStage(wi, f) + AssigneeStage(wi, f)
  }

  function FieldsStage(m: map<string, string>): (u: seq<Update>)
    ensures |m| > 0 <==> u == [SetFields(m)]
    ensures |m| == 0 <==> u == []
  {
    if |m| > 0 then [SetFields(m)] else []
  }

  function SeverityStage(wi: WorkItem, f: Form): (u: seq<Update>)
    ensures var changed := TypeOf(wi) == "Bug" && TrimSpace(Severity(f)) != TrimSpace(FieldString(wi.fields, SeverityKey));
      && (changed <==> u == [SetFields(map[SeverityKey := Severity(f)])])
      && (!changed <==> u == [])
  {
    if TypeOf(wi) == "Bug" && TrimSpace(Severity(f)) != TrimSpace(FieldString(wi.fields, SeverityKey))
    then [SetFields(map[SeverityKey := Severity(f)])] else []
  }

  function AssigneeStage(wi: WorkItem, f: Form): (u: seq<Update>)
    ensures var changed := f.assignee != AssigneeDisplay(wi.fields) && TrimSpace(f.assignee) != "";
      && (changed <==> u == [Assign(f.assignee)])
      && (!changed <==> u == [])
  {
    if f.assignee != AssigneeDisplay(wi.fields) && TrimSpace(f.assignee) != "" then [Assign(f.assignee)] else []
  }

  /** The plan is at most three updates; the fields update, when present,
      comes first; the plan is empty exactly when every stage is. */
  lemma PlanShape(fields: map<string, string>, wi: WorkItem, f: Form)
    ensures var p := Plan(fields, wi, f);
      && |p| <= 3
      && (|fields| > 0 <==> |p| > 0 && p[0] == SetFields(fields))
      && (p == [] <==> |fields| == 0 && SeverityStage(wi, f) == [] && AssigneeStage(wi, f) == [])
  {
    if |fields| == 0 {
      var s := SeverityStage(wi, f);
      if |s| > 0 {
        assert s[0].fields != fields by {
          assert SeverityKey in s[0].fields;
        }
      }
    }
  }

  lemma MediumTrimmed()
    ensures TrimSpace(MediumSeverity) == MediumSeverity
  {
    TrimSpaceSpec(MediumSeverity);
    assert !IsSpace(MediumSeverity[0]) && !IsSpace(MediumSeverity[|MediumSeverity| - 1]);
    TrimmedFixed(MediumSeverity);
  }

  lemma TrimmedFixed(s: string)
    requires |s| > 0 && !IsSpace(s[0]) && !IsSpace(s[|s| - 1])
    ensures TrimSpace(s) == s
  {
  }

  /** Submitting the form untouched changes only what the starting values
      normalise: a User Story whose current column is missing from the
      order moves to the first column, and a blank-looking but non-empty
      assignee is cleared; nothing else enters the fields update. */
  lemma UntouchedForm(wi: WorkItem, current: string, key: string, order: seq<string>,
                      toMarkdown: string -> string, toHtml: string -> string)
    requires |order| > 0
    requires key == "" || IsKanbanKey(key)
    ensures var start := Prefill(wi, current, order, toMarkdown);
      var f := OnForm(TypeOf(wi), start, start.(proceed := true));
      var m := Changes(wi, current, key, f, start.description, start.criteria, toHtml);
      && (forall k :: k in m ==> k == key || k == AssigneeKey)
      && (key != "" ==> (key in m <==> TypeOf(wi) == "User Story" && (current == "" || current !in order)
                                       && order[0] != current && order[0] != ""))
      && (AssigneeKey in m <==> TrimSpace(AssigneeDisplay(wi.fields)) == "" && AssigneeDisplay(wi.fields) != "")
  {
    var start := Prefill(wi, current, order, toMarkdown);
    var f := OnForm(TypeOf(wi), start, start.(proceed := true));
    assert f == start.(proceed := true);
    assert start.column == if TypeOf(wi) == "User Story" then DefaultColumn(order, current) else "";
    ChangesSpec(wi, current, key, f, start.description, start.criteria, toHtml);
    UntouchedChanges(Changes(wi, current, key, f, start.description, start.criteria, toHtml),
                     wi, current, key, order, start, toHtml);
  }

  lemma UntouchedChanges(m: map<string, string>, wi: WorkItem, current: string, key: string, order: seq<string>,
                         start: Form, toHtml: string -> string)
    requires |order| > 0
    requires start.title == FieldString(wi.fields, TitleKey) && start.state == FieldString(wi.fields, StateKey)
    requires start.assignee == AssigneeDisplay(wi.fields)
    requires start.column == if TypeOf(wi) == "User Story" then DefaultColumn(order, current) else ""
    requires ChangeSetOf(m, wi, current, key, start.(proceed := true), start.description, start.criteria, toHtml)
    ensures forall k :: k in m ==> k == key || k == AssigneeKey
    ensures key != "" ==> (key in m <==> TypeOf(wi) == "User Story" && (current == "" || current !in order)
                                         && order[0] != current && order[0] != "")
    ensures AssigneeKey in m <==> TrimSpace(AssigneeDisplay(wi.fields)) == "" && AssigneeDisplay(wi.fields) != ""
  {
  }

  /** Submitting the form untouched issues no assignee update, and a
      severity update exactly for a Bug whose severity is blank, which then
      gets "3 - Medium". */
  lemma UntouchedStages(wi: WorkItem, current: string, order: seq<string>, toMarkdown: string -> string)
    requires |order| > 0
    ensures var start := Prefill(wi, current, order, toMarkdown);
      var f := OnForm(TypeOf(wi), start, start.(proceed := true));
      && (SeverityStage(wi, f) != [] <==> TypeOf(wi) == "Bug" && TrimSpace(FieldString(wi.fields, SeverityKey)) == "")
      && (SeverityStage(wi, f) != [] ==> SeverityStage(wi, f) == [SetFields(map[SeverityKey := MediumSeverity])])
      && AssigneeStage(wi, f) == []
  {
    var start := Prefill(wi, current, order, toMarkdown);
    var f := OnForm(TypeOf(wi), start, start.(proceed := true));
    assert f == start.(proceed := true);
    MediumTrimmed();
  }
}
