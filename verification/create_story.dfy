/** `ab create story` (cmd/create_story.go): a User Story created in state
    New, from flags or from an interactive form; the form also places the
    new story in a Kanban column with an update after the create call. */
module CreateStory {
  import opened Errors
  import opened Strs
  import opened Json
  import opened Wi
  import opened Az
  import opened Render
  import opened Create

  const Heading := "User Story Created"

  /** What is printed for output that should hold a work item: the item
      rendered under `heading` when it decodes, the output as it is
      otherwise. */
  function Displayed(heading: string, out: Output): (p: Print)
    ensures Unmarshal(out, DecodeWorkItem).None? <==> p == Raw(out)
    ensures Unmarshal(out, DecodeWorkItem).Some? ==> p == RenderOf(heading, Unmarshal(out, DecodeWorkItem).value)
  {
    match Unmarshal(out, DecodeWorkItem)
    case None => Raw(out)
    case Some(wi) => RenderOf(heading, wi)
  }

  method Present(heading: string, out: Output) returns (r: Result<Printed>)
    ensures Shows(Ok(Displayed(heading, out)), r)
  {
    var p := Render.Display(heading, out);
    r := Ok(p);
  }

  // ---------------------------------------------------------------------
  // The flag path

  /** The fields a User Story is created with from flags: New, and the
      assignee when there is one. */
  function StoryFields(who: Option<string>): (f: map<string, string>)
    ensures f.Keys == {StateKey} + (if who.Some? then {AssigneeKey} else {})
    ensures f[StateKey] == "New"
    ensures who.Some? ==> f[AssigneeKey] == who.value
  {
    KeysDistinct();
    WithAssignee(map[StateKey := "New"], who)
  }

  /** The commands of `create story "<title>"`: the assignee lookup, then,
      unless it fails, the create call. */
  function StoryCalls(run: seq<string> -> Result<Output>, title: string, assignee: string, order: seq<string>)
    : seq<seq<string>>
  {
    AssigneeCalls(assignee) +
      match Assignee(run, assignee)
      case Fail(_) => []
      case Ok(who) => [CreateArgs("User Story", title, StoryFields(who), order)]
  }

  /** The lookup's error, the create call's error, or its output shown. */
  function StoryResult(run: seq<string> -> Result<Output>, title: string, assignee: string, order: seq<string>)
    : Result<Print>
  {
    match Assignee(run, assignee)
    case Fail(e) => Fail(e)
    case Ok(who) => Created(run, CreateArgs("User Story", title, StoryFields(who), order))
  }

  /** The create call's error, or its output shown. */
  function Created(run: seq<string> -> Result<Output>, create: seq<string>): Result<Print>
  {
    match run(create)
    case Fail(e) => Fail(e)
    case Ok(out) => Ok(Displayed(Heading, out))
  }

  method Make(c: Client, title: string, fields: map<string, string>) returns (r: Result<Printed>, ghost order: seq<string>)
    modifies c`attempts, c`echoed, c`calls
    ensures IsKeyOrder(order, fields)
    ensures c.Ran(old(c.attempts), old(c.echoed), old(c.calls), [CreateArgs("User Story", title, fields, order)])
    ensures Shows(Created(c.Runner(), CreateArgs("User Story", title, fields, order)), r)
  {
    var raw;
    raw, order := c.CreateWorkItem("User Story", title, fields, "");
    match raw
    case Fail(e) =>
      r := Fail(e);
    case Ok(out) =>
      r := Present(Heading, out);
  }

  /** `StoryCalls` and `StoryResult` case by case. */
  lemma StorySteps(run: seq<string> -> Result<Output>, title: string, assignee: string, order: seq<string>)
    ensures var who := Assignee(run, assignee);
      var calls := StoryCalls(run, title, assignee, order);
      var res := StoryResult(run, title, assignee, order);
      && (who.Fail? ==> calls == AssigneeCalls(assignee) && res == Fail(who.error))
      && (who.Ok? ==>
            var create := CreateArgs("User Story", title, StoryFields(who.value), order);
            && calls == AssigneeCalls(assignee) + [create]
            && res == Created(run, create))
  {
    assert AssigneeCalls(assignee) + [] == AssigneeCalls(assignee);
  }

  /** `create story "<title>"`. */
  method CreateStory(c: Client, title: string, assignee: string) returns (r: Result<Printed>, ghost order: seq<string>)
    modifies c`attempts, c`echoed, c`calls
    ensures Assignee(c.Runner(), assignee).Ok? ==> IsKeyOrder(order, StoryFields(Assignee(c.Runner(), assignee).value))
    ensures c.Ran(old(c.attempts), old(c.echoed), old(c.calls), StoryCalls(c.Runner(), title, assignee, order))
    ensures Shows(StoryResult(c.Runner(), title, assignee, order), r)
  {
    ghost var a0, e0, c0 := c.attempts, c.echoed, c.calls;
    var who := ResolveAssignee(c, assignee);
    match who
    case Fail(e) =>
      r, order := Fail(e), [];
      StorySteps(c.Runner(), title, assignee, order);
    case Ok(w) =>
      ghost var a1, e1, c1 := c.attempts, c.echoed, c.calls;
      r, order := Make(c, title, StoryFields(w));
      c.Chain(a0, e0, c0, AssigneeCalls(assignee), a1, e1, c1,
              [CreateArgs("User Story", title, StoryFields(w), order)], c.attempts, c.echoed, c.calls);
      StorySteps(c.Runner(), title, assignee, order);
  }

  /** A failed lookup of "@me" creates nothing; otherwise exactly one
      create call is made, with state New and the assignee only when the
      flag is not blank. */
  lemma FlagStoryCreated(run: seq<string> -> Result<Output>, title: string, assignee: string, order: seq<string>)
    ensures Assignee(run, assignee).Fail? ==>
      StoryCalls(run, title, assignee, order) == [Upn]
      && StoryResult(run, title, assignee, order) == Fail(Wrapped("get current user", TrimmedText(run(Upn)).error))
    ensures Assignee(run, assignee).Ok? ==>
      var f := StoryFields(Assignee(run, assignee).value);
      && |StoryCalls(run, title, assignee, order)| == |AssigneeCalls(assignee)| + 1
      && f[StateKey] == "New"
      && (AssigneeKey in f <==> TrimSpace(assignee) != "")
  {
    StorySteps(run, title, assignee, order);
  }

  // ---------------------------------------------------------------------
  // The interactive path

  /** The values of the User Story form. */
  datatype StoryForm = StoryForm(title: string, column: string, assignee: string, description: string,
                                 criteria: string, proceed: bool)

  /** The form's starting values: the first column of the order and the
      assignee from the flag. */
  function StoryStart(column: string, assignee: string): (f: StoryForm)
    ensures f.column == column && f.assignee == assignee
    ensures f.title == "" && f.description == "" && f.criteria == "" && !f.proceed
  {
    StoryForm("", column, assignee, "", "", false)
  }

  /** The fields a User Story is created with from the form: New, the
      assignee when not blank, and the description and the acceptance
      criteria, as HTML, when their Markdown is not blank. */
  function FormFields(f: StoryForm, toHtml: string -> string): (m: map<string, string>)
  {
    var m0 := WithNonBlank(map[StateKey := "New"], AssigneeKey, f.assignee);
    WithHtml(WithHtml(m0, DescriptionKey, f.description, toHtml), CriteriaKey, f.criteria, toHtml)
  }

  lemma FormFieldsSpec(f: StoryForm, toHtml: string -> string)
    ensures var m := FormFields(f, toHtml);
      && StateKey in m && m[StateKey] == "New"
      && (AssigneeKey in m <==> TrimSpace(f.assignee) != "")
      && (AssigneeKey in m ==> m[AssigneeKey] == f.assignee)
      && (DescriptionKey in m <==> TrimSpace(f.description) != "")
      && (DescriptionKey in m ==> m[DescriptionKey] == toHtml(f.description))
      && (CriteriaKey in m <==> TrimSpace(f.criteria) != "")
      && (CriteriaKey in m ==> m[CriteriaKey] == toHtml(f.criteria))
      && m.Keys <= {StateKey, AssigneeKey, DescriptionKey, CriteriaKey}
  {
    KeysDistinct();
  }

  /** What the form returns, offered the columns of the order and started
      from the first of them. */
  function Answer(run: seq<string> -> Result<Output>, columns: seq<string>, assignee: string,
                  fill: (seq<string>, StoryForm) -> Result<StoryForm>): Result<StoryForm>
    requires |columns| > 0
  {
    fill(columns, StoryStart(columns[0], Prefill(run, assignee)))
  }

  method Ask(c: Client, columns: seq<string>, assignee: string, fill: (seq<string>, StoryForm) -> Result<StoryForm>)
    returns (f: Result<StoryForm>)
    requires |columns| > 0
    modifies c`attempts, c`echoed, c`calls
    ensures c.Ran(old(c.attempts), old(c.echoed), old(c.calls), AssigneeCalls(assignee))
    ensures f == Answer(c.Runner(), columns, assignee, fill)
  {
    var col := columns[0];
    var who := PrefillAssignee(c, assignee);
    f := fill(columns, StoryStart(col, who));
  }

  /** The key `FindKanbanColumn` picks among the fields of the created
      item: some Kanban column field holding a string, or "" when there is
      none. */
  ghost predicate KanbanChoice(fields: Fields, key: string)
  {
    if HasKanbanField(fields) then key in fields && IsKanbanKey(key) && fields[key].JStr? else key == ""
  }

  /** The key chosen for the create call's output `out`. */
  ghost predicate KeyOf(out: Output, key: string)
  {
    match Unmarshal(out, DecodeWorkItem)
    case None => key == ""
    case Some(wi) => KanbanChoice(wi.fields, key)
  }

  /** Whether the column update runs: the item has a Kanban column field
      and the chosen column is not blank. */
  predicate Places(key: string, column: string)
  {
    key != "" && TrimSpace(column) != ""
  }

  /** The update that moves the new item to `column`: one field. */
  function PlaceArgs(wi: WorkItem, key: string, column: string): seq<string>
  {
    UpdateArgs(IntToString(wi.id), map[key := column], [key])
  }

  /** The commands after the create call: the column update, when the
      output decodes and `Places` holds. */
  function PlacedCalls(out: Output, column: string, key: string): seq<seq<string>>
  {
    match Unmarshal(out, DecodeWorkItem)
    case None => []
    case Some(wi) => if Places(key, column) then [PlaceArgs(wi, key, column)] else []
  }

  /** Output that does not decode is printed raw; otherwise the update's
      error is returned as it is, its output shown, or, without an update,
      the created item rendered. */
  function PlacedResult(run: seq<string> -> Result<Output>, out: Output, column: string, key: string): Result<Print>
  {
    match Unmarshal(out, DecodeWorkItem)
    case None => Ok(Raw(out))
    case Some(wi) =>
      if Places(key, column) then
        match run(PlaceArgs(wi, key, column))
        case Fail(e) => Fail(e)
        case Ok(u) => Ok(Displayed(Heading, u))
      else Ok(RenderOf(Heading, wi))
  }

  method Place(c: Client, out: Output, column: string) returns (r: Result<Printed>, ghost key: string)
    modifies c`attempts, c`echoed, c`calls
    ensures KeyOf(out, key)
    ensures c.Ran(old(c.attempts), old(c.echoed), old(c.calls), PlacedCalls(out, column, key))
    ensures Shows(PlacedResult(c.Runner(), out, column, key), r)
  {
    var wi := Unmarshal(out, DecodeWorkItem);
    match wi
    case None =>
      c.Idle(c.attempts, c.echoed, c.calls);
      r, key := Ok(RawJson(out)), "";
    case Some(item) =>
      var k, _ := FindKanbanColumn(item.fields);
      key := k;
      if k != "" && TrimSpace(column) != "" {
        var u, order := c.UpdateWorkItemFields(IntToString(item.id), map[k := column]);
        KeyOrderSingleton(k, column, order);
        match u
        case Fail(e) =>
          r := Fail(e);
        case Ok(o) =>
          r := Present(Heading, o);
      } else {
        c.Idle(c.attempts, c.echoed, c.calls);
        var md := RenderWorkItem(Heading, Some(item));
        r := Ok(Rendered(md.value));
      }
  }

  /** The commands the form's answer `a` leads to: none when the form
      fails or is not confirmed, else the create call and the column
      update that may follow it. */
  function AnswerCalls(run: seq<string> -> Result<Output>, a: Result<StoryForm>, toHtml: string -> string,
                       order: seq<string>, key: string): seq<seq<string>>
  {
    match a
    case Fail(_) => []
    case Ok(f) =>
      if !f.proceed then []
      else
        var create := CreateArgs("User Story", f.title, FormFields(f, toHtml), order);
        [create] + match run(create) case Fail(_) => [] case Ok(out) => PlacedCalls(out, f.column, key)
  }

  /** The form's error, "cancelled", the create call's error, or what its
      output leads to. */
  function AnswerResult(run: seq<string> -> Result<Output>, a: Result<StoryForm>, toHtml: string -> string,
                        order: seq<string>, key: string): Result<Print>
  {
    match a
    case Fail(e) => Fail(e)
    case Ok(f) =>
      if !f.proceed then Fail(FormCancelled)
      else
        match run(CreateArgs("User Story", f.title, FormFields(f, toHtml), order))
        case Fail(e) => Fail(e)
        case Ok(out) => PlacedResult(run, out, f.column, key)
  }

  /** The key is chosen from the create call's output, when there is
      one. */
  ghost predicate AnswerKey(run: seq<string> -> Result<Output>, a: Result<StoryForm>, toHtml: string -> string,
                            order: seq<string>, key: string)
  {
    a.Ok? && a.value.proceed ==>
      && IsKeyOrder(order, FormFields(a.value, toHtml))
      && var out := run(CreateArgs("User Story", a.value.title, FormFields(a.value, toHtml), order));
         out.Ok? ==> KeyOf(out.value, key)
  }

  /** Acts on the form's answer. */
  method Submit(c: Client, a: Result<StoryForm>, toHtml: string -> string)
    returns (r: Result<Printed>, ghost order: seq<string>, ghost key: string)
    modifies c`attempts, c`echoed, c`calls
    ensures AnswerKey(c.Runner(), a, toHtml, order, key)
    ensures c.Ran(old(c.attempts), old(c.echoed), old(c.calls), AnswerCalls(c.Runner(), a, toHtml, order, key))
    ensures Shows(AnswerResult(c.Runner(), a, toHtml, order, key), r)
  {
    match a
    case Fail(e) =>
      c.Idle(c.attempts, c.echoed, c.calls);
      r, order, key := Fail(e), [], "";
    case Ok(v) =>
      if !v.proceed {
        c.Idle(c.attempts, c.echoed, c.calls);
        r, order, key := Fail(FormCancelled), [], "";
      } else {
        ghost var a0, e0, c0 := c.attempts, c.echoed, c.calls;
        var raw;
        raw, order := c.CreateWorkItem("User Story", v.title, FormFields(v, toHtml), "");
        ghost var create := CreateArgs("User Story", v.title, FormFields(v, toHtml), order);
        match raw
        case Fail(e) =>
          r, key := Fail(e), "";
          assert [create] + [] == [create];
        case Ok(out) =>
          ghost var a1, e1, c1 := c.attempts, c.echoed, c.calls;
          r, key := Place(c, out, v.column);
          c.Chain(a0, e0, c0, [create], a1, e1, c1, PlacedCalls(out, v.column, key), c.attempts, c.echoed, c.calls);
      }
  }

  /** `interactiveCreateStory`'s commands: the assignee lookup, then those
      the form's answer leads to. */
  function InteractiveCalls(run: seq<string> -> Result<Output>, columns: seq<string>, assignee: string,
                            fill: (seq<string>, StoryForm) -> Result<StoryForm>, toHtml: string -> string,
                            order: seq<string>, key: string): seq<seq<string>>
    requires |columns| > 0
  {
    AssigneeCalls(assignee) + AnswerCalls(run, Answer(run, columns, assignee, fill), toHtml, order, key)
  }

  function InteractiveResult(run: seq<string> -> Result<Output>, columns: seq<string>, assignee: string,
                             fill: (seq<string>, StoryForm) -> Result<StoryForm>, toHtml: string -> string,
                             order: seq<string>, key: string): Result<Print>
    requires |columns| > 0
  {
    AnswerResult(run, Answer(run, columns, assignee, fill), toHtml, order, key)
  }

  method CreateStoryInteractively(c: Client, columns: seq<string>, assignee: string,
                                  fill: (seq<string>, StoryForm) -> Result<StoryForm>, toHtml: string -> string)
    returns (r: Result<Printed>, ghost order: seq<string>, ghost key: string)
    requires |columns| > 0
    modifies c`attempts, c`echoed, c`calls
    ensures AnswerKey(c.Runner(), Answer(c.Runner(), columns, assignee, fill), toHtml, order, key)
    ensures c.Ran(old(c.attempts), old(c.echoed), old(c.calls),
                  InteractiveCalls(c.Runner(), columns, assignee, fill, toHtml, order, key))
    ensures Shows(InteractiveResult(c.Runner(), columns, assignee, fill, toHtml, order, key), r)
  {
    ghost var a0, e0, c0 := c.attempts, c.echoed, c.calls;
    var f := Ask(c, columns, assignee, fill);
    ghost var a1, e1, c1 := c.attempts, c.echoed, c.calls;
    r, order, key := Submit(c, f, toHtml);
    c.Chain(a0, e0, c0, AssigneeCalls(assignee), a1, e1, c1, AnswerCalls(c.Runner(), f, toHtml, order, key),
            c.attempts, c.echoed, c.calls);
  }

  /** After a confirmed form whose create call succeeded with output that
      decodes: the column update runs exactly when the item has a Kanban
      column field and the chosen column is not blank; it sets that one
      field to the column, and its error is returned unchanged. */
  lemma ColumnPlacement(run: seq<string> -> Result<Output>, f: StoryForm, toHtml: string -> string,
                        order: seq<string>, key: string)
    requires f.proceed
    requires var out := run(CreateArgs("User Story", f.title, FormFields(f, toHtml), order));
      out.Ok? && Unmarshal(out.value, DecodeWorkItem).Some? && KeyOf(out.value, key)
    ensures var create := CreateArgs("User Story", f.title, FormFields(f, toHtml), order);
      var wi := Unmarshal(run(create).value, DecodeWorkItem).value;
      var calls := AnswerCalls(run, Ok(f), toHtml, order, key);
      var res := AnswerResult(run, Ok(f), toHtml, order, key);
      && (|calls| == 2 <==> HasKanbanField(wi.fields) && TrimSpace(f.column) != "")
      && (|calls| == 2 ==>
            && calls == [create, UpdateArgs(IntToString(wi.id), map[key := f.column], [key])]
            && KanbanChoice(wi.fields, key) && key in wi.fields && IsKanbanKey(key)
            && (run(calls[1]).Fail? ==> res == Fail(run(calls[1]).error))
            && (run(calls[1]).Ok? ==> res == Ok(Displayed(Heading, run(calls[1]).value))))
      && (|calls| != 2 ==> calls == [create] && res == Ok(RenderOf(Heading, wi)))
  {
  }

  /** A form that fails or is not confirmed creates nothing: only the
      assignee lookup runs. */
  lemma UnconfirmedCreatesNothing(run: seq<string> -> Result<Output>, columns: seq<string>, assignee: string,
                                  fill: (seq<string>, StoryForm) -> Result<StoryForm>, toHtml: string -> string,
                                  order: seq<string>, key: string)
    requires |columns| > 0
    requires var a := Answer(run, columns, assignee, fill); a.Fail? || !a.value.proceed
    ensures InteractiveCalls(run, columns, assignee, fill, toHtml, order, key) == AssigneeCalls(assignee)
    ensures InteractiveResult(run, columns, assignee, fill, toHtml, order, key).Fail?
    ensures !Answer(run, columns, assignee, fill).Fail? ==>
      InteractiveResult(run, columns, assignee, fill, toHtml, order, key) == Fail(FormCancelled)
  {
    assert AssigneeCalls(assignee) + [] == AssigneeCalls(assignee);
  }

  /** `create story [title]`: the form without a title argument, the flag
      path with one. The form needs the column order, which is never
      empty. */
  method StoryCmd(c: Client, args: seq<string>, columns: seq<string>, assignee: string,
                  fill: (seq<string>, StoryForm) -> Result<StoryForm>, toHtml: string -> string)
    returns (r: Result<Printed>, ghost order: seq<string>, ghost key: string)
    requires |args| <= 1
    requires |args| == 0 ==> |columns| > 0
    modifies c`attempts, c`echoed, c`calls
    ensures |args| == 0 ==>
      && c.Ran(old(c.attempts), old(c.echoed), old(c.calls),
               InteractiveCalls(c.Runner(), columns, assignee, fill, toHtml, order, key))
      && Shows(InteractiveResult(c.Runner(), columns, assignee, fill, toHtml, order, key), r)
    ensures |args| == 1 ==>
      && c.Ran(old(c.attempts), old(c.echoed), old(c.calls), StoryCalls(c.Runner(), args[0], assignee, order))
      && Shows(StoryResult(c.Runner(), args[0], assignee, order), r)
  {
    if |args| == 0 {
      r, order, key := CreateStoryInteractively(c, columns, assignee, fill, toHtml);
    } else {
      r, order := CreateStory(c, args[0], assignee);
      key := "";
    }
  }
}
