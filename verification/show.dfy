/** `ab show` (cmd/show.go): one work item as a markdown document of
    labelled sections, with placeholders for empty values, the Bug's
    severity, and, for a User Story, its column, its acceptance criteria
    and its children sorted by id, highest first. The terminal rendering
    of the document and saving it to a file are not part of this model. */
module Show {
  import opened Errors
  import opened Strs
  import opened Json
  import opened Wi
  import opened Az
  import opened Render
  import opened List
  import opened ListChildren
  import opened ListRender
  import opened Picker

  const CreatedByKey := "System.CreatedBy"

  /** `createdByDisplay`: the creator as a plain string, else the
      `displayName` string of an identity object, else "". */
  function CreatedByDisplay(fields: Fields): (r: string)
    ensures CreatedByKey !in fields ==> r == ""
  {
    if CreatedByKey in fields then
      match fields[CreatedByKey]
      case JStr(s) => s
      case JObj(m) => FieldString(m, "displayName")
      case _ => ""
    else ""
  }

  /** Both forms the creator is stored in read back as the name; any other
      kind of value reads as "". */
  lemma CreatedByForms(fields: Fields, name: string, other: Json)
    requires !other.JStr? && !other.JObj?
    ensures CreatedByDisplay(fields[CreatedByKey := JStr(name)]) == name
    ensures CreatedByDisplay(fields[CreatedByKey := JObj(map["displayName" := JStr(name)])]) == name
    ensures CreatedByDisplay(fields[CreatedByKey := JObj(map[])]) == ""
    ensures CreatedByDisplay(fields[CreatedByKey := other]) == ""
  {
  }

  /** The placeholder for a blank value. */
  function OrNil(s: string): (r: string)
    ensures TrimSpace(s) == "" ==> r == "NIL"
    ensures TrimSpace(s) != "" ==> r == s
  {
    if TrimSpace(s) == "" then "NIL" else s
  }

  /** Neither the value nor its placeholder is ever blank. */
  lemma OrNilNotBlank(s: string)
    ensures TrimSpace(OrNil(s)) != ""
  {
    if TrimSpace(s) == "" {
      var nil := "NIL";
      assert !IsSpace(nil[0]);
      TrimLeftSpec(nil);
      TrimRightSpec(TrimLeft(nil));
      assert TrimLeft(nil) == nil;
    }
  }

  /** The labelled sections of the document. */
  datatype Label = TitleField | SeverityField | CreatedByField | AssigneeField | ColumnField | StateField
                 | DescriptionField | CriteriaField | ChildrenSection

  function LabelText(l: Label): string
  {
    match l
    case TitleField => "Title"
    case SeverityField => "Severity"
    case CreatedByField => "Created By"
    case AssigneeField => "Assignee"
    case ColumnField => "Column"
    case StateField => "State"
    case DescriptionField => "Description"
    case CriteriaField => "Acceptance Criteria"
    case ChildrenSection => "Children"
  }

  /** One piece of the document: the heading naming type and id, a
      labelled value, or the children section. */
  datatype Part = Heading(wtype: string, id: int) | Field(name: Label, value: string) | ChildList(sorted: seq<QueryItem>)

  function PartText(p: Part): string
  {
    match p
    case Heading(t, id) => "# " + t + " AB#" + IntToString(id) + "\n\n"
    case Field(l, v) => "**" + LabelText(l) + ":**  \n" + v + "\n\n"
    case ChildList(s) => "# Children\n\n" + (if |s| == 0 then NoItems else TypedHeader + Rows(s, true, "")) + "\n"
  }

  /** The values the document shows, before placeholders: the type, the
      id, the trimmed title, the severity, the creator, the assignee, the
      Kanban column value `col`, the state, and the description and
      acceptance criteria converted to markdown. */
  datatype Values = Values(wtype: string, id: int, title: string, severity: string, creator: string,
                           assignee: string, column: string, state: string, description: string,
                           criteria: string)

  function ValuesOf(wi: WorkItem, col: string, toMarkdown: string -> string): Values
  {
    var f := wi.fields;
    Values(FieldString(f, TypeKey), wi.id, TrimSpace(FieldString(f, TitleKey)), FieldString(f, SeverityKey),
           CreatedByDisplay(f), AssigneeDisplay(f), col, FieldString(f, StateKey),
           toMarkdown(FieldString(f, DescriptionKey)), toMarkdown(FieldString(f, CriteriaKey)))
  }

  /** The sections in the order they are written, with `sorted` the
      children as sorted. */
  function Layout(v: Values, sorted: seq<QueryItem>): seq<Part>
  {
    var story := v.wtype == "User Story";
    [Heading(v.wtype, v.id), Field(TitleField, v.title)]
    + (if v.wtype == "Bug" then [Field(SeverityField, OrNil(v.severity))] else [])
    + [Field(CreatedByField, if v.creator == "" then "(unknown)" else v.creator),
       Field(AssigneeField, OrNil(v.assignee))]
    + (if story then [Field(ColumnField, OrNil(v.column))] else [])
    + [Field(StateField, v.state), Field(DescriptionField, OrNil(v.description))]
    + (if story then [Field(CriteriaField, OrNil(v.criteria)), ChildList(sorted)] else [])
  }

  function Parts(wi: WorkItem, col: string, sorted: seq<QueryItem>, toMarkdown: string -> string): seq<Part>
  {
    Layout(ValuesOf(wi, col, toMarkdown), sorted)
  }

  /** The labels of the sections, in order, the children section
      included. */
  function Labels(parts: seq<Part>): (ls: seq<Label>)
    ensures |ls| <= |parts|
  {
    if |parts| == 0 then []
    else
      var here := match parts[0]
        case Heading(_, _) => []
        case Field(l, _) => [l]
        case ChildList(_) => [ChildrenSection];
      here + Labels(parts[1..])
  }

  lemma {:induction false} LabelsAppend(a: seq<Part>, b: seq<Part>)
    ensures Labels(a + b) == Labels(a) + Labels(b)
  {
    if |a| > 0 {
      assert (a + b)[1..] == a[1..] + b;
      LabelsAppend(a[1..], b);
    } else {
      assert a + b == b;
    }
  }

  predicate Has(parts: seq<Part>, l: Label)
  {
    l in Labels(parts)
  }

  /** The labels follow the layout part by part. */
  lemma LayoutLabels(v: Values, sorted: seq<QueryItem>)
    ensures Labels(Layout(v, sorted))
         == [TitleField] + (if v.wtype == "Bug" then [SeverityField] else []) + [CreatedByField, AssigneeField]
            + (if v.wtype == "User Story" then [ColumnField] else []) + [StateField, DescriptionField]
            + (if v.wtype == "User Story" then [CriteriaField, ChildrenSection] else [])
  {
    var story := v.wtype == "User Story";
    var head := [Heading(v.wtype, v.id), Field(TitleField, v.title)];
    var sev := if v.wtype == "Bug" then [Field(SeverityField, OrNil(v.severity))] else [];
    var common := [Field(CreatedByField, if v.creator == "" then "(unknown)" else v.creator),
                   Field(AssigneeField, OrNil(v.assignee))];
    var colp := if story then [Field(ColumnField, OrNil(v.column))] else [];
    var tail := [Field(StateField, v.state), Field(DescriptionField, OrNil(v.description))];
    var kids := if story then [Field(CriteriaField, OrNil(v.criteria)), ChildList(sorted)] else [];
    assert Layout(v, sorted) == head + sev + common + colp + tail + kids;
    LabelsAppend(head, sev);
    LabelsAppend(head + sev, common);
    LabelsAppend(head + sev + common, colp);
    LabelsAppend(head + sev + common + colp, tail);
    LabelsAppend(head + sev + common + colp + tail, kids);
    assert Labels(head) == [TitleField];
    assert Labels(sev) == if v.wtype == "Bug" then [SeverityField] else [];
    assert Labels(common) == [CreatedByField, AssigneeField];
    assert Labels(colp) == if story then [ColumnField] else [];
    assert Labels(tail) == [StateField, DescriptionField];
    assert Labels(kids) == if story then [CriteriaField, ChildrenSection] else [];
  }

  /** The Severity section appears exactly for a Bug; the Column, the
      Acceptance Criteria and the children exactly for a User Story, the
      children last; the other sections always. */
  lemma SectionsByType(v: Values, sorted: seq<QueryItem>)
    ensures var parts := Layout(v, sorted);
      && parts[0] == Heading(v.wtype, v.id)
      && (Has(parts, SeverityField) <==> v.wtype == "Bug")
      && (Has(parts, ColumnField) <==> v.wtype == "User Story")
      && (Has(parts, CriteriaField) <==> v.wtype == "User Story")
      && (Has(parts, ChildrenSection) <==> v.wtype == "User Story")
      && (v.wtype == "User Story" ==> parts[|parts| - 1] == ChildList(sorted))
      && Has(parts, TitleField) && Has(parts, CreatedByField) && Has(parts, AssigneeField)
      && Has(parts, StateField) && Has(parts, DescriptionField)
  {
    LayoutEnds(v, sorted);
    LabelsByType(v, sorted);
  }

  lemma LayoutEnds(v: Values, sorted: seq<QueryItem>)
    ensures var parts := Layout(v, sorted);
      && parts[0] == Heading(v.wtype, v.id)
      && (v.wtype == "User Story" ==> parts[|parts| - 1] == ChildList(sorted))
  {
  }

  lemma LabelsByType(v: Values, sorted: seq<QueryItem>)
    ensures var parts := Layout(v, sorted);
      && (Has(parts, SeverityField) <==> v.wtype == "Bug")
      && (Has(parts, ColumnField) <==> v.wtype == "User Story")
      && (Has(parts, CriteriaField) <==> v.wtype == "User Story")
      && (Has(parts, ChildrenSection) <==> v.wtype == "User Story")
      && Has(parts, TitleField) && Has(parts, CreatedByField) && Has(parts, AssigneeField)
      && Has(parts, StateField) && Has(parts, DescriptionField)
  {
    LayoutLabels(v, sorted);
    LabelOrder(v.wtype, Labels(Layout(v, sorted)));
  }

  lemma LabelOrder(wtype: string, ls: seq<Label>)
    requires ls == [TitleField] + (if wtype == "Bug" then [SeverityField] else []) + [CreatedByField, AssigneeField]
            + (if wtype == "User Story" then [ColumnField] else []) + [StateField, DescriptionField]
            + (if wtype == "User Story" then [CriteriaField, ChildrenSection] else [])
    ensures && (SeverityField in ls <==> wtype == "Bug")
      && (ColumnField in ls <==> wtype == "User Story")
      && (CriteriaField in ls <==> wtype == "User Story")
      && (ChildrenSection in ls <==> wtype == "User Story")
      && TitleField in ls && CreatedByField in ls && AssigneeField in ls
      && StateField in ls && DescriptionField in ls
  {
    if wtype == "Bug" {
      assert ls == [TitleField, SeverityField, CreatedByField, AssigneeField, StateField, DescriptionField];
    } else if wtype == "User Story" {
      assert ls == [TitleField, CreatedByField, AssigneeField, ColumnField, StateField, DescriptionField,
                    CriteriaField, ChildrenSection];
    } else {
      assert ls == [TitleField, CreatedByField, AssigneeField, StateField, DescriptionField];
    }
  }

  /** The Created By section is never empty, showing "(unknown)" for an
      empty creator; the Severity, Assignee, Column, Description and
      Acceptance Criteria sections are never blank, showing "NIL" for a
      blank value. */
  lemma Placeholders(v: Values, sorted: seq<QueryItem>)
    ensures forall p :: p in Layout(v, sorted) ==> Filled(v, p)
  {
    OrNilNotBlank(v.severity);
    OrNilNotBlank(v.assignee);
    OrNilNotBlank(v.column);
    OrNilNotBlank(v.description);
    OrNilNotBlank(v.criteria);
    var story := v.wtype == "User Story";
    var head := [Heading(v.wtype, v.id), Field(TitleField, v.title)];
    var sev := if v.wtype == "Bug" then [Field(SeverityField, OrNil(v.severity))] else [];
    var common := [Field(CreatedByField, if v.creator == "" then "(unknown)" else v.creator),
                   Field(AssigneeField, OrNil(v.assignee))];
    var colp := if story then [Field(ColumnField, OrNil(v.column))] else [];
    var tail := [Field(StateField, v.state), Field(DescriptionField, OrNil(v.description))];
    var kids := if story then [Field(CriteriaField, OrNil(v.criteria)), ChildList(sorted)] else [];
    assert Layout(v, sorted) == head + sev + common + colp + tail + kids;
    assert AllFilled(v, head) && AllFilled(v, sev) && AllFilled(v, common);
    assert AllFilled(v, colp) && AllFilled(v, tail) && AllFilled(v, kids);
    FilledJoin(v, head, sev);
    FilledJoin(v, head + sev, common);
    FilledJoin(v, head + sev + common, colp);
    FilledJoin(v, head + sev + common + colp, tail);
    FilledJoin(v, head + sev + common + colp + tail, kids);
  }

  predicate AllFilled(v: Values, parts: seq<Part>)
  {
    forall p :: p in parts ==> Filled(v, p)
  }

  lemma FilledJoin(v: Values, a: seq<Part>, b: seq<Part>)
    requires AllFilled(v, a) && AllFilled(v, b)
    ensures AllFilled(v, a + b)
  {
  }

  /** What `Placeholders` promises of one section: the creator or
      "(unknown)" under Created By, and a non-blank value under every
      label but Title and State. */
  predicate Filled(v: Values, p: Part)
  {
    p.Field? ==>
      && (p.name == CreatedByField ==>
            && (v.creator == "" ==> p.value == "(unknown)")
            && (v.creator != "" ==> p.value == v.creator))
      && (p.name != TitleField && p.name != StateField && p.name != CreatedByField ==> TrimSpace(p.value) != "")
  }

  /** The document: its parts' texts one after another. */
  function Markdown(wi: WorkItem, col: string, sorted: seq<QueryItem>, toMarkdown: string -> string): string
  {
    Concat(Parts(wi, col, sorted, toMarkdown), PartText)
  }

  /** `md` is a document `show` builds for `wi` and the fetched
      `children`: with the column some Kanban field holds, and the
      children sorted by id, highest first. */
  ghost predicate Page(wi: WorkItem, children: seq<QueryItem>, toMarkdown: string -> string, md: string)
  {
    exists col, sorted ::
      && KanbanValue(wi.fields, col)
      && ByIdDesc(sorted) && multiset(sorted) == multiset(children)
      && md == Markdown(wi, col, sorted, toMarkdown)
  }

  /** Writes the document into the buffer, part after part. */
  method Compose(wi: WorkItem, children: seq<QueryItem>, toMarkdown: string -> string) returns (md: string)
    ensures Page(wi, children, toMarkdown, md)
  {
    var col := ParentColumn(Some(wi));
    var sorted := children;
    if |children| > 0 {
      sorted := SortedChildren(children);
    }
    md := WriteAll("", Parts(wi, col, sorted, toMarkdown), PartText);
    assert md == Markdown(wi, col, sorted, toMarkdown);
  }

  /** The commands the document for `wi` needs and what it comes to: for
      a User Story the children's queries, then their error or the
      document; for any other type no command and the document without
      children. `kids` is what the children's queries returned. */
  ghost predicate Documented(c: Client, wi: WorkItem, includeAll: bool, toMarkdown: string -> string,
                             trace: seq<seq<string>>, kids: Result<seq<QueryItem>>, r: Result<string>)
    reads c`mode, c`confirm, c`exec
  {
    if FieldString(wi.fields, TypeKey) != "User Story" then
      trace == [] && r.Ok? && Page(wi, [], toMarkdown, r.value)
    else
      && ParentQueried(c, IntToString(wi.id), includeAll, trace, kids)
      && (kids.Fail? ==> r == Fail(kids.error))
      && (kids.Ok? ==> r.Ok? && Page(wi, kids.value, toMarkdown, r.value))
  }

  /** The document for a work item that decoded. */
  method Document(c: Client, wi: WorkItem, includeAll: bool, toMarkdown: string -> string)
    returns (r: Result<string>, ghost trace: seq<seq<string>>, ghost kids: Result<seq<QueryItem>>)
    modifies c`attempts, c`echoed, c`calls
    ensures c.Ran(old(c.attempts), old(c.echoed), old(c.calls), trace)
    ensures Documented(c, wi, includeAll, toMarkdown, trace, kids, r)
  {
    var got: Result<seq<QueryItem>> := Ok([]);
    trace := [];
    if FieldString(wi.fields, TypeKey) == "User Story" {
      got, trace := QueryItemsByParent(c, IntToString(wi.id), includeAll);
    } else {
      c.Idle(c.attempts, c.echoed, c.calls);
    }
    kids := got;
    match got
    case Fail(e) =>
      r := Fail(e);
    case Ok(children) =>
      var md := Compose(wi, children, toMarkdown);
      r := Ok(md);
  }

  /** The commands `show <id>` runs and what it returns: the show, then
      what `Inspected` says of its outcome. */
  ghost predicate Showed(c: Client, id: string, includeAll: bool, toMarkdown: string -> string,
                         trace: seq<seq<string>>, kids: Result<seq<QueryItem>>, r: Result<string>)
    reads c`mode, c`confirm, c`exec
  {
    && |trace| >= 1 && trace[0] == ShowArgs(id)
    && Inspected(c, id, ShownOf(c.Outcome(ShowArgs(id))), includeAll, toMarkdown, trace[1..], kids, r)
  }

  /** After the show `sh`: its error, "unable to inspect" for an item that
      does not decode, both with no further command, or what the document
      comes to. */
  ghost predicate Inspected(c: Client, id: string, sh: Result<Shown>, includeAll: bool, toMarkdown: string -> string,
                            rest: seq<seq<string>>, kids: Result<seq<QueryItem>>, r: Result<string>)
    reads c`mode, c`confirm, c`exec
  {
    match sh
    case Fail(e) => rest == [] && r == Fail(e)
    case Ok(s) =>
      match s.item
      case None => rest == [] && r == Fail(UnableToInspect(id))
      case Some(wi) => Documented(c, wi, includeAll, toMarkdown, rest, kids, r)
  }

  /** What follows the show `sh`. */
  method Inspect(c: Client, id: string, sh: Result<Shown>, includeAll: bool, toMarkdown: string -> string)
    returns (r: Result<string>, ghost rest: seq<seq<string>>, ghost kids: Result<seq<QueryItem>>)
    modifies c`attempts, c`echoed, c`calls
    ensures c.Ran(old(c.attempts), old(c.echoed), old(c.calls), rest)
    ensures Inspected(c, id, sh, includeAll, toMarkdown, rest, kids, r)
  {
    rest, kids := [], Ok([]);
    c.Idle(c.attempts, c.echoed, c.calls);
    match sh {
      case Fail(e) =>
        r := Fail(e);
      case Ok(s) =>
        match s.item {
          case None =>
            r := Fail(UnableToInspect(id));
          case Some(wi) =>
            r, rest, kids := Document(c, wi, includeAll, toMarkdown);
        }
    }
  }

  /** `show <id>` up to the markdown document. */
  method ShowItem(c: Client, id: string, includeAll: bool, toMarkdown: string -> string)
    returns (r: Result<string>, ghost trace: seq<seq<string>>, ghost kids: Result<seq<QueryItem>>)
    modifies c`attempts, c`echoed, c`calls
    ensures c.Ran(old(c.attempts), old(c.echoed), old(c.calls), trace)
    ensures Showed(c, id, includeAll, toMarkdown, trace, kids, r)
  {
    ghost var a0, e0, c0 := c.attempts, c.echoed, c.calls;
    var sh := c.ShowWorkItem(id);
    ghost var a1, e1, c1 := c.attempts, c.echoed, c.calls;
    ghost var rest;
    r, rest, kids := Inspect(c, id, sh, includeAll, toMarkdown);
    c.Chain(a0, e0, c0, [ShowArgs(id)], a1, e1, c1, rest, c.attempts, c.echoed, c.calls);
    trace := [ShowArgs(id)] + rest;
    assert trace[1..] == rest;
  }

  /** `show` without an id: the id picked among the items that are not
      Closed, then `show <id>`. */
  ghost predicate PickShowed(c: Client, usePO: bool, pick: seq<Choice> -> Result<string>, includeAll: bool,
                             toMarkdown: string -> string, trace: seq<seq<string>>, kids: Result<seq<QueryItem>>,
                             r: Result<string>)
    reads c`mode, c`confirm, c`exec
  {
    var listing := QueryCalls(c.Runner(), "", false, usePO);
    var picked := Chosen(QueryResult(c.Runner(), "", false, usePO), ItemChoice, NoItemsToSelect, NoSelection, pick);
    && |trace| >= |listing| && trace[..|listing|] == listing
    && (picked.Fail? ==> trace == listing && r == Fail(picked.error))
    && (picked.Ok? ==> Showed(c, picked.value, includeAll, toMarkdown, trace[|listing|..], kids, r))
  }

  method ShowPicked(c: Client, usePO: bool, pick: seq<Choice> -> Result<string>, includeAll: bool,
                    toMarkdown: string -> string)
    returns (r: Result<string>, ghost trace: seq<seq<string>>, ghost kids: Result<seq<QueryItem>>)
    modifies c`attempts, c`echoed, c`calls
    ensures c.Ran(old(c.attempts), old(c.echoed), old(c.calls), trace)
    ensures PickShowed(c, usePO, pick, includeAll, toMarkdown, trace, kids, r)
  {
    ghost var a0, e0, c0 := c.attempts, c.echoed, c.calls;
    var id;
    id, trace := PickNonClosedID(c, usePO, pick);
    match id
    case Fail(e) =>
      r, kids := Fail(e), Ok([]);
    case Ok(v) =>
      ghost var a1, e1, c1 := c.attempts, c.echoed, c.calls;
      ghost var rest;
      r, rest, kids := ShowItem(c, v, includeAll, toMarkdown);
      c.Chain(a0, e0, c0, trace, a1, e1, c1, rest, c.attempts, c.echoed, c.calls);
      assert (trace + rest)[..|trace|] == trace && (trace + rest)[|trace|..] == rest;
      trace := trace + rest;
  }

  /** `show [id]`: the id given, or the one picked. */
  method ShowCmd(c: Client, args: seq<string>, includeAll: bool, usePO: bool, pick: seq<Choice> -> Result<string>,
                 toMarkdown: string -> string)
    returns (r: Result<string>, ghost trace: seq<seq<string>>, ghost kids: Result<seq<QueryItem>>)
    requires |args| <= 1
    modifies c`attempts, c`echoed, c`calls
    ensures c.Ran(old(c.attempts), old(c.echoed), old(c.calls), trace)
    ensures |args| == 1 ==> Showed(c, args[0], includeAll, toMarkdown, trace, kids, r)
    ensures |args| == 0 ==> PickShowed(c, usePO, pick, includeAll, toMarkdown, trace, kids, r)
  {
    if |args| == 1 {
      r, trace, kids := ShowItem(c, args[0], includeAll, toMarkdown);
    } else {
      r, trace, kids := ShowPicked(c, usePO, pick, includeAll, toMarkdown);
    }
  }
}
